/** De-duplication that keeps first occurrences in order. */
module Dedupes {
  import opened Prelude

  /** `hashes` with every later repetition dropped. */
  function Dedupe(hashes: seq<string>): (r: seq<string>)
    ensures ToSet(r) == ToSet(hashes)
    ensures Distinct(r)
  {
    if hashes == [] then []
    else
      var r := Dedupe(Init(hashes));
      assert hashes == Init(hashes) + [Last(hashes)];
      ToSetAppend(Init(hashes), Last(hashes));
      ToSetAppend(r, Last(hashes));
      if Last(hashes) in r then r else r + [Last(hashes)]
  }

  method DedupeList(hashes: seq<string>) returns (out: seq<string>)
    ensures out == Dedupe(hashes)
  {
    var seen: set<string> := {};
    out := [];
    for i := 0 to |hashes|
      invariant seen == ToSet(out)
      invariant out == Dedupe(hashes[..i])
    {
      assert Init(hashes[..i + 1]) == hashes[..i];
      if hashes[i] !in seen {
        seen := seen + {hashes[i]};
        out := out + [hashes[i]];
      }
    }
    assert hashes[..|hashes|] == hashes;
  }

  /** Appending keeps what was there, in place. */
  lemma {:induction false} DedupeGrows(a: seq<string>, b: seq<string>)
    ensures Dedupe(a) <= Dedupe(a + b)
  {
    if b == [] {
      assert a + b == a;
    } else {
      assert Init(a + b) == a + Init(b);
      DedupeGrows(a, Init(b));
    }
  }

  /** De-duplicating step by step is de-duplicating once at the end. */
  lemma {:induction false} DedupeAbsorbs(a: seq<string>, b: seq<string>)
    ensures Dedupe(Dedupe(a) + b) == Dedupe(a + b)
  {
    if b == [] {
      assert Dedupe(a) + b == Dedupe(a) && a + b == a;
      DedupeOfDistinct(Dedupe(a));
    } else {
      assert Init(a + b) == a + Init(b);
      assert Init(Dedupe(a) + b) == Dedupe(a) + Init(b);
      DedupeAbsorbs(a, Init(b));
    }
  }

  lemma DedupeLast(a: seq<string>)
    requires a != []
    ensures Dedupe(a) == if Last(a) in Dedupe(Init(a)) then Dedupe(Init(a)) else Dedupe(Init(a)) + [Last(a)]
  {
  }

  lemma NothingToDedupe()
    ensures Dedupe([]) == []
  {
  }

  /** The last element of a list without repetitions is new. */
  lemma DistinctInit(a: seq<string>)
    requires a != [] && Distinct(a)
    ensures Distinct(Init(a)) && Last(a) !in Init(a) && Init(a) + [Last(a)] == a
  {
  }

  lemma {:induction false} DedupeOfDistinct(a: seq<string>)
    requires Distinct(a)
    ensures Dedupe(a) == a
  {
    hide Dedupe, Distinct;
    if a == [] {
      NothingToDedupe();
    } else {
      DistinctInit(a);
      DedupeOfDistinct(Init(a));
      DedupeLast(a);
    }
  }

  /** The first occurrences keep their order: `r` lists `hashes` by first position. */
  lemma {:induction false} DedupeIsFirstOccurrence(hashes: seq<string>, k: nat)
    requires k < |hashes| && hashes[k] !in hashes[..k]
    ensures |Dedupe(hashes[..k])| < |Dedupe(hashes)|
    ensures Dedupe(hashes)[|Dedupe(hashes[..k])|] == hashes[k]
  {
    var before := hashes[..k];
    assert hashes[..k + 1] == before + [hashes[k]];
    assert hashes[k] !in ToSet(before);
    assert Init(hashes[..k + 1]) == before;
    assert hashes == hashes[..k + 1] + hashes[k + 1..];
    DedupeGrows(hashes[..k + 1], hashes[k + 1..]);
  }

  /** ... and nothing else is kept: the element at `i` is the first occurrence that `i` others
    * precede. */
  lemma {:induction false} KeptIsFirstOccurrence(hashes: seq<string>, i: nat) returns (k: nat)
    requires i < |Dedupe(hashes)|
    ensures k < |hashes| && hashes[k] !in hashes[..k]
    ensures Dedupe(hashes)[i] == hashes[k] && |Dedupe(hashes[..k])| == i
  {
    var before := Init(hashes);
    DedupeLast(hashes);
    if i < |Dedupe(before)| {
      k := KeptIsFirstOccurrence(before, i);
      assert hashes[..k] == before[..k];
    } else {
      k := |before|;
      assert hashes[..k] == before;
      assert forall x :: x in before ==> x in ToSet(before);
      assert forall x :: x in ToSet(Dedupe(before)) ==> x in Dedupe(before);
    }
  }

  lemma DedupeElements(a: seq<string>, i: nat)
    requires i < |Dedupe(a)|
    ensures Dedupe(a)[i] in a
  {
  }
}
