/** UTF-8 (section 3 of RFC 3629) and truncation to a byte cap. */
module Utf8 {
  import opened Prelude

  type byte = b: int | 0 <= b < 256

  function EncodeChar(c: char): (e: seq<byte>)
    ensures 1 <= |e| <= 4
  {
    var n := c as int;
    if n < 0x80 then [n]
    else if n < 0x800 then [0xC0 + n / 64, 0x80 + n % 64]
    else if n < 0x10000 then [0xE0 + n / 4096, 0x80 + n / 64 % 64, 0x80 + n % 64]
    else [0xF0 + n / 262144, 0x80 + n / 4096 % 64, 0x80 + n / 64 % 64, 0x80 + n % 64]
  }

  /** `text.encode("utf-8")` */
  function Encode(text: string): seq<byte> {
    if text == "" then [] else EncodeChar(text[0]) + Encode(text[1..])
  }

  predicate Continues(b: byte) { 0x80 <= b < 0xC0 }

  function Low(b: byte): int { b - 0x80 }

  /** The number of bytes a lead byte announces, 0 if it is not one. */
  function Announced(b: byte): nat {
    if b < 0x80 then 1
    else if 0xC2 <= b < 0xE0 then 2
    else if 0xE0 <= b < 0xF0 then 3
    else if 0xF0 <= b < 0xF5 then 4
    else 0
  }

  predicate IsScalar(n: int) { 0 <= n < 0xD800 || 0xE000 <= n < 0x110000 }

  /** The code point of a complete, shortest-form sequence at the front, if there is one. */
  function FrontPoint(b: seq<byte>): (r: Option<int>)
    requires |b| > 0
    ensures r.Some? ==> IsScalar(r.value) && 1 <= Announced(b[0]) <= |b|
  {
    var k, lead := Announced(b[0]), b[0] as int;
    if k == 0 || k > |b| then None
    else if k == 1 then Some(b[0])
    else if !Continues(b[1]) then None
    else if k == 2 then Some((lead - 0xC0) * 64 + Low(b[1]))
    else if !Continues(b[2]) then None
    else if k == 3 then
      var n := (lead - 0xE0) * 4096 + Low(b[1]) * 64 + Low(b[2]);
      if n >= 0x800 && IsScalar(n) then Some(n) else None
    else if !Continues(b[3]) then None
    else
      var n := (lead - 0xF0) * 262144 + Low(b[1]) * 4096 + Low(b[2]) * 64 + Low(b[3]);
      if n >= 0x10000 && IsScalar(n) then Some(n) else None
  }

  /** `b.decode("utf-8", "ignore")`: what is not part of a sequence is skipped. */
  function DecodeIgnore(b: seq<byte>): string {
    if b == [] then ""
    else match FrontPoint(b)
      case Some(n) => [n as char] + DecodeIgnore(b[Announced(b[0])..])
      case None => DecodeIgnore(b[1..])
  }

  datatype Clamped = Clamped(value: string, truncated: bool)

  function ClampText(text: string, cap: nat): Clamped {
    var encoded := Encode(text);
    if |encoded| <= cap then Clamped(text, false) else Clamped(DecodeIgnore(encoded[..cap]), true)
  }

  // ----- proofs ---------------------------------------------------------------------

  lemma Digits64(n: int)
    requires 0 <= n < 0x110000
    ensures n / 262144 * 262144 + n / 4096 % 64 * 4096 + n / 64 % 64 * 64 + n % 64 == n
    ensures n / 4096 == n / 64 / 64 && n / 262144 == n / 4096 / 64
  {
  }

  lemma FrontOfEncoded(c: char, rest: seq<byte>)
    ensures var b := EncodeChar(c) + rest;
      Announced(b[0]) == |EncodeChar(c)| && FrontPoint(b) == Some(c as int)
  {
    Digits64(c as int);
  }

  /** A cut-off sequence decodes to nothing. */
  lemma CutDecodesToNothing(c: char, k: nat)
    requires k < |EncodeChar(c)|
    ensures DecodeIgnore(EncodeChar(c)[..k]) == ""
  {
    var e := EncodeChar(c);
    if k > 0 {
      Digits64(c as int);
      assert Announced(e[..k][0]) == |e|;
      assert FrontPoint(e[..k]).None?;
      OnlyContinuations(e[..k][1..]);
    }
  }

  lemma {:induction false} OnlyContinuations(b: seq<byte>)
    requires forall i :: 0 <= i < |b| ==> Continues(b[i])
    ensures DecodeIgnore(b) == ""
  {
    if b == [] {
    } else {
      OnlyContinuations(b[1..]);
    }
  }

  /** The number of leading characters whose encoding fits. */
  function Fitting(text: string, cap: nat): (k: nat)
    ensures k <= |text|
  {
    if text == "" || |EncodeChar(text[0])| > cap then 0
    else 1 + Fitting(text[1..], cap - |EncodeChar(text[0])|)
  }

  lemma {:induction false} FittingIsLongest(text: string, cap: nat)
    ensures var k := Fitting(text, cap);
      |Encode(text[..k])| <= cap && (k < |text| ==> |Encode(text[..k + 1])| > cap)
  {
    var k := Fitting(text, cap);
    if text != "" && |EncodeChar(text[0])| <= cap {
      FittingIsLongest(text[1..], cap - |EncodeChar(text[0])|);
      assert text[..k][1..] == text[1..][..k - 1];
      assert k < |text| ==> text[..k + 1][1..] == text[1..][..k];
    } else if text != "" {
      assert text[..1][1..] == "";
    }
  }

  lemma {:induction false} DecodePrefix(text: string, cap: nat)
    requires cap <= |Encode(text)|
    ensures DecodeIgnore(Encode(text)[..cap]) == text[..Fitting(text, cap)]
  {
    if text == "" {
    } else {
      var e, rest := EncodeChar(text[0]), Encode(text[1..]);
      if |e| <= cap {
        var b := e + rest[..cap - |e|];
        assert Encode(text)[..cap] == b;
        FrontOfEncoded(text[0], rest[..cap - |e|]);
        assert b[|e|..] == rest[..cap - |e|];
        DecodePrefix(text[1..], cap - |e|);
        hide FrontPoint, Announced, EncodeChar;
        assert text[..Fitting(text, cap)] == [text[0]] + text[1..][..Fitting(text[1..], cap - |e|)];
      } else {
        assert Encode(text)[..cap] == e[..cap];
        CutDecodesToNothing(text[0], cap);
      }
    }
  }

  lemma {:induction false} EncodeGrows(text: string, k: nat)
    requires k <= |text|
    ensures |Encode(text[..k])| + |Encode(text[k..])| == |Encode(text)|
  {
    if k > 0 {
      EncodeGrows(text[1..], k - 1);
      assert text[..k][1..] == text[1..][..k - 1] && text[k..] == text[1..][k - 1..];
    } else {
      assert text[..0] == "" && text[0..] == text;
    }
  }

  /** Clamping keeps the longest prefix that fits in the cap, and says whether it cut. */
  lemma ClampIsLongestPrefix(text: string, cap: nat)
    ensures var c := ClampText(text, cap);
      && c.value <= text && |Encode(c.value)| <= cap
      && (forall p :: c.value < p <= text ==> |Encode(p)| > cap)
      && (c.truncated <==> c.value != text)
  {
    FittingIsLongest(text, cap);
    var k := Fitting(text, cap);
    if |Encode(text)| <= cap {
      assert text[..|text|] == text;
    } else {
      DecodePrefix(text, cap);
    }
    var c := ClampText(text, cap);
    forall p | c.value < p <= text
      ensures |Encode(p)| > cap
    {
      if k < |text| {
        assert p[..k + 1] == text[..k + 1];
        EncodeGrows(p, k + 1);
      }
    }
  }

  /** Decoding undoes encoding. */
  lemma {:induction false} DecodeEncode(text: string)
    ensures DecodeIgnore(Encode(text)) == text
  {
    if text == "" {
    } else {
      DecodeEncode(text[1..]);
      FrontOfEncoded(text[0], Encode(text[1..]));
      assert (EncodeChar(text[0]) + Encode(text[1..]))[|EncodeChar(text[0])|..] == Encode(text[1..]);
      hide FrontPoint, Announced, EncodeChar;
    }
  }
}
