/** Filename stems from titles, and vault-relative paths from parts. */
module Paths {
  import opened Prelude
  import opened Text
  import opened Utf8

  /** The Unicode tables and the hash, which this model takes as given. */
  datatype Tables = Tables(
    nfc: string -> string, nfkc: string -> string, control: char -> bool,
    lower: string -> string, digest: string -> string)

  const MAX_STEM_BYTES := 200
  const MAX_SEGMENT_BYTES := 255
  const MAX_DEPTH := 64
  const DIGEST_LENGTH := 12

  const Unsafe := Exn(Terminal, "unsafe path")

  predicate Forbidden(c: char) {
    c in ['<', '>', ':', '"', '/', '\\', '|', '?', '*', '\0']
  }

  const Reserved: seq<string> := [
    "con", "prn", "aux", "nul", "conin$", "conout$", "clock$",
    "com1", "com2", "com3", "com4", "com5", "com6", "com7", "com8", "com9",
    "lpt1", "lpt2", "lpt3", "lpt4", "lpt5", "lpt6", "lpt7", "lpt8", "lpt9"]

  predicate HasDotDot(s: string) {
    exists i :: 0 <= i < |s| - 1 && s[i] == '.' && s[i + 1] == '.'
  }

  function TrimRight(s: string, trimmed: set<char>): (r: string)
    ensures r <= s && (r != "" ==> Last(r) !in trimmed)
  {
    if s != "" && Last(s) in trimmed then TrimRight(Init(s), trimmed) else s
  }

  /** The part of a name that Windows compares with its device names. */
  function ReservedStem(u: Tables, text: string): string {
    u.lower(TrimRight(Split(text, '.')[0], {' '}))
  }

  predicate SafeChars(u: Tables, text: string) {
    !HasDotDot(text) && forall i :: 0 <= i < |text| ==> !Forbidden(text[i]) && !u.control(text[i])
  }

  /** The checks on a normalized title. */
  predicate SafeTitle(u: Tables, n: string) {
    && n == Strip(n) && n != "" && n[0] != '~' && n[0] != '.' && Last(n) != '.' && Last(n) != ' '
    && SafeChars(u, n) && SafeChars(u, u.nfkc(n))
    && ReservedStem(u, n) !in Reserved && ReservedStem(u, u.nfkc(n)) !in Reserved
  }

  /** An overlong stem: the longest prefix that leaves room for a digest of the whole. */
  function Truncated(n: string): string {
    TrimRight(ClampText(n, MAX_STEM_BYTES - DIGEST_LENGTH - 1).value, {'.', ' '})
  }

  function SanitizeTitle(u: Tables, title: string): Result<string, Exn> {
    var n := u.nfc(title);
    if !SafeTitle(u, n) then Err(Unsafe)
    else if |Encode(n)| <= MAX_STEM_BYTES then Ok(n)
    else if Truncated(n) == "" then Err(Unsafe)
    else Ok(Truncated(n) + "-" + u.digest(n))
  }

  // ----- idempotence ----------------------------------------------------------------

  /** A string that is its own NFC and NFKC form. */
  predicate Stable(u: Tables, s: string) { u.nfc(s) == s && u.nfkc(s) == s }

  predicate HexChar(c: char) { IsDigit(c) || 'a' <= c <= 'f' }

  /** The facts about the tables that the proof uses, for one title: prefixes of stable
    * strings and stable strings followed by ASCII are stable; a hyphen survives lowering;
    * the digest is twelve hexadecimal digits; neither those nor a hyphen are controls. */
  ghost predicate Lawful(u: Tables, n: string) {
    && |u.digest(n)| == DIGEST_LENGTH && (forall i :: 0 <= i < DIGEST_LENGTH ==> HexChar(u.digest(n)[i]))
    && (forall c :: HexChar(c) || c == '-' ==> !u.control(c))
    && (forall s :: '-' in s ==> '-' in u.lower(s))
    && (forall p :: p <= n && Stable(u, n) ==> Stable(u, p + "-" + u.digest(n)))
  }

  lemma {:induction false} EncodeConcat(a: string, b: string)
    ensures Encode(a + b) == Encode(a) + Encode(b)
  {
    if a == "" {
      assert a + b == b;
    } else {
      assert (a + b)[1..] == a[1..] + b;
      EncodeConcat(a[1..], b);
    }
  }

  lemma {:induction false} AsciiLength(s: string)
    requires forall i :: 0 <= i < |s| ==> s[i] as int < 0x80
    ensures |Encode(s)| == |s|
  {
    if s == "" {
    } else {
      AsciiLength(s[1..]);
    }
  }

  lemma {:induction false} ShorterPrefix(p: string, s: string)
    requires p <= s
    ensures |Encode(p)| <= |Encode(s)|
  {
    EncodeConcat(p, s[|p|..]);
    assert p + s[|p|..] == s;
  }

  lemma TruncatedIsPrefix(n: string)
    ensures Truncated(n) <= n && |Encode(Truncated(n))| <= MAX_STEM_BYTES - DIGEST_LENGTH - 1
  {
    ClampIsLongestPrefix(n, MAX_STEM_BYTES - DIGEST_LENGTH - 1);
    var c := ClampText(n, MAX_STEM_BYTES - DIGEST_LENGTH - 1).value;
    ShorterPrefix(Truncated(n), c);
  }

  /** Every stem fits in the byte limit, digest included. */
  lemma StemFits(u: Tables, title: string)
    requires SanitizeTitle(u, title).Ok? && Lawful(u, u.nfc(title))
    ensures |Encode(SanitizeTitle(u, title).value)| <= MAX_STEM_BYTES
  {
    var n := u.nfc(title);
    if |Encode(n)| > MAX_STEM_BYTES {
      TruncatedIsPrefix(n);
      hide Truncated, SafeTitle;
      EncodeConcat(Truncated(n) + "-", u.digest(n));
      EncodeConcat(Truncated(n), "-");
      AsciiLength("-");
      AsciiLength(u.digest(n));
    }
  }

  lemma {:induction false} SplitHeadOfConcat(p: string, q: string, c: char)
    ensures Split(p + q, c)[0] == if c in p then Split(p, c)[0] else p + Split(q, c)[0]
  {
    if p == "" {
      assert p + q == q;
    } else {
      assert (p + q)[1..] == p[1..] + q;
      if p[0] != c {
        SplitHeadOfConcat(p[1..], q, c);
        assert p == [p[0]] + p[1..];
      }
    }
  }

  /** The stem before the first dot is kept, or now holds the hyphen no device name has. */
  lemma ReservedStemKept(u: Tables, n: string, t: string)
    requires Lawful(u, n) && t <= n && t != "" && ReservedStem(u, n) !in Reserved
    ensures ReservedStem(u, t + "-" + u.digest(n)) !in Reserved
  {
    hide TrimRight, Split;
    var tail := "-" + u.digest(n);
    assert t + "-" + u.digest(n) == t + tail;
    SplitHeadOfConcat(t, tail, '.');
    if '.' in t {
      SplitHeadOfConcat(t, n[|t|..], '.');
      assert t + n[|t|..] == n;
    } else {
      SplitFree(tail, '.');
      assert Last(t + tail) == Last(u.digest(n)) && HexChar(Last(t + tail));
      TrimNothing(t + tail);
      assert (t + tail)[|t|] == '-';
      NoDeviceHasHyphen(u.lower(t + tail));
    }
  }

  lemma TrimNothing(s: string)
    requires s != "" && Last(s) != ' '
    ensures TrimRight(s, {' '}) == s
  {
  }

  lemma NoDeviceHasHyphen(s: string)
    requires '-' in s
    ensures s !in Reserved
  {
  }

  /** A truncated stem passes the checks its title passed. */
  lemma TruncatedIsSafe(u: Tables, n: string)
    requires Lawful(u, n) && Stable(u, n) && SafeTitle(u, n) && Truncated(n) != ""
    ensures SafeTitle(u, Truncated(n) + "-" + u.digest(n))
  {
    TruncatedIsPrefix(n);
    var t := Truncated(n);
    var r := t + "-" + u.digest(n);
    hide Truncated;
    assert r[0] == t[0] == n[0];
    assert Last(r) == Last(u.digest(n)) && HexChar(Last(r));
    TitleEnds(n);
    StripKeeps(r);
    forall i | 0 <= i < |r| - 1
      ensures !(r[i] == '.' && r[i + 1] == '.')
    {
      if i + 1 < |t| {
        assert r[i] == n[i] && r[i + 1] == n[i + 1];
      } else if i + 1 > |t| {
        assert HexChar(r[i + 1]);
      }
    }
    forall i | 0 <= i < |r|
      ensures !Forbidden(r[i]) && !u.control(r[i])
    {
      if i < |t| {
        assert r[i] == n[i];
      } else {
        assert r[i] == '-' || HexChar(r[i]);
      }
    }
    ReservedStemKept(u, n, t);
  }

  lemma TitleEnds(n: string)
    requires n == Strip(n) && n != ""
    ensures !IsSpace(n[0])
  {
    StripLeftIsSuffix(n);
    if IsSpace(n[0]) {
      StripLeftIsSuffix(n[1..]);
      StripRightIsPrefix(StripLeft(n));
    }
  }

  /** What idempotence needs of a title: that NFC is stable on it and, if it is overlong,
    * that it is its own NFKC form too and the tables are lawful for it. */
  ghost predicate LawfulTitle(u: Tables, title: string) {
    && u.nfc(u.nfc(title)) == u.nfc(title)
    && (|Encode(u.nfc(title))| > MAX_STEM_BYTES ==> Stable(u, u.nfc(title)) && Lawful(u, u.nfc(title)))
  }

  /** Sanitizing is idempotent, through the truncation and the digest. */
  lemma SanitizeIsIdempotent(u: Tables, title: string)
    requires SanitizeTitle(u, title).Ok? && LawfulTitle(u, title)
    ensures SanitizeTitle(u, SanitizeTitle(u, title).value) == SanitizeTitle(u, title)
  {
    var n := u.nfc(title);
    if |Encode(n)| > MAX_STEM_BYTES {
      StemFits(u, title);
      TruncatedIsPrefix(n);
      TruncatedIsSafe(u, n);
      hide SafeTitle;
    }
  }

  /** Stems tell titles apart: two that fit share one only if they are one string in NFC, two
    * that do not only if their digests agree, and one of each only if the one that fits ends
    * in the digest of the other. */
  lemma StemsTellTitlesApart(u: Tables, a: string, b: string)
    requires SanitizeTitle(u, a).Ok? && SanitizeTitle(u, b) == SanitizeTitle(u, a)
    requires |u.digest(u.nfc(a))| == |u.digest(u.nfc(b))| == DIGEST_LENGTH
    ensures var m, n := u.nfc(a), u.nfc(b);
      var short, alsoShort := |Encode(m)| <= MAX_STEM_BYTES, |Encode(n)| <= MAX_STEM_BYTES;
      && (short && alsoShort ==> m == n)
      && (!short && !alsoShort ==> u.digest(m) == u.digest(n))
      && (short && !alsoShort ==> EndsWith(m, "-" + u.digest(n)))
  {
    hide SafeTitle, Truncated, Encode;
    var m, n := u.nfc(a), u.nfc(b);
    var stem := SanitizeTitle(u, a).value;
    if |Encode(m)| > MAX_STEM_BYTES {
      assert stem[|stem| - DIGEST_LENGTH..] == u.digest(m);
    }
    if |Encode(n)| > MAX_STEM_BYTES {
      assert stem == Truncated(n) + ("-" + u.digest(n));
      assert stem[|stem| - DIGEST_LENGTH..] == u.digest(n);
    }
  }

  // ----- paths ----------------------------------------------------------------------

  /** One segment of a path part. */
  predicate SafeSegment(u: Tables, segment: string) {
    && segment != "" && segment[0] != '.' && |Encode(segment)| <= MAX_SEGMENT_BYTES
    && !HasDotDot(u.nfkc(segment))
    && forall i :: 0 <= i < |u.nfkc(segment)| ==> !Forbidden(u.nfkc(segment)[i])
  }

  predicate SafePart(u: Tables, part: string) {
    && part != "" && part[0] != '~' && part[0] != '/'
    && (forall i :: 0 <= i < |part| ==> (part[i] == '/' || !Forbidden(part[i])) && !u.control(part[i]))
    && forall i :: 0 <= i < |Split(part, '/')| ==> SafeSegment(u, Split(part, '/')[i])
  }

  /** The vault-relative path of the parts, or an error; `contained` says whether a path
    * crosses no symlink and stays below the root. */
  function ResolveInVault(u: Tables, contained: string -> bool, parts: seq<string>): Result<string, Exn> {
    if parts == [] || !(forall i :: 0 <= i < |parts| ==> SafePart(u, parts[i])) then Err(Unsafe)
    else
      var path := Join(parts, "/");
      if |Split(path, '/')| > MAX_DEPTH || !contained(path) then Err(Unsafe) else Ok(path)
  }

  function StripSlashes(s: string): string {
    var left := TrimLeft(s, '/');
    TrimRight(left, {'/'})
  }

  function TrimLeft(s: string, c: char): string {
    if s != "" && s[0] == c then TrimLeft(s[1..], c) else s
  }

  lemma {:induction false} TrailingSlashEmptySegment(s: string)
    requires s != "" && Last(s) == '/'
    ensures Last(Split(s, '/')) == ""
  {
    if |s| > 1 {
      assert Last(s[1..]) == '/';
      TrailingSlashEmptySegment(s[1..]);
    } else {
      assert s == "/" && Split(s[1..], '/') == [""];
    }
  }

  /** A resolved folder has no slash at either end. */
  lemma SafePartHasBareEnds(u: Tables, part: string)
    requires SafePart(u, part)
    ensures StripSlashes(part) == part
  {
    if Last(part) == '/' {
      TrailingSlashEmptySegment(part);
    }
  }
}
