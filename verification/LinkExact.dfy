/** Exactly which links a downgrade leaves: the unwanted ones, and those it uncovers or cannot
  * reach. */
module LinkExactness {
  import opened Prelude
  import opened Text
  import opened Links
  import opened LinkTheorems

  // ----- a text in pieces -----------------------------------------------------------

  /** The text the extractor scans, from the pieces that the rewriter sees one at a time. */
  function Whole(pieces: seq<string>): string {
    if pieces == [] then "" else pieces[0] + Whole(pieces[1..])
  }

  function Rewritten(pieces: seq<string>, wanted: set<string>): string {
    if pieces == [] then "" else Sub(pieces[0], wanted) + Rewritten(pieces[1..], wanted)
  }

  /** The link at the start of the rewritten text, unless it was there and not wanted. */
  function NewAt(s: string, rest: seq<string>, wanted: set<string>): Option<Match> {
    match MatchLink(Sub(s, wanted) + Rewritten(rest, wanted))
    case None => None
    case Some(m) => if MatchLink(s + Whole(rest)) == Some(m) && TargetOf(m) !in wanted then None else Some(m)
  }

  /** The links that should not be there after the pieces are rewritten: wanted ones that run
    * over the end of a piece, and those made of what stood around a rewritten link. Each
    * starts at a "[[" that starts no link within its piece. */
  function Added(s: string, rest: seq<string>, wanted: set<string>): seq<Match>
    decreases |rest|, |s|
  {
    if s == "" then
      if rest == [] then [] else Added(rest[0], rest[1..], wanted)
    else match MatchLink(s)
      case Some(m) => Added(Beyond(s, m), rest, wanted)
      case None =>
        match NewAt(s, rest, wanted)
        case Some(m) => [m] + Added(s[1..], rest, wanted)
        case None => Added(s[1..], rest, wanted)
  }

  // ----- scanning -------------------------------------------------------------------

  lemma {:induction false} NoOpenSkips(a: string, t: string, wanted: set<string>)
    requires '[' !in a
    ensures FindAll(a + t) == FindAll(t) && Sub(a + t, wanted) == a + Sub(t, wanted)
  {
    hide *;
    if a == "" {
      assert a + t == t;
    } else {
      assert a + t == [a[0]] + (a[1..] + t) && (a + t)[1..] == a[1..] + t;
      NoOpenSkips(a[1..], t, wanted);
      NoBracketNoMatch(a + t);
      ScanPast(a + t, wanted);
    }
  }

  /** The part of a link after its first bracket. */
  lemma AfterFirst(m: Match)
    requires Proper(m)
    ensures var core := Source(m)[2..];
      && Source(m) == "[" + ("[" + core) && |core| >= 3 && '[' !in core && core[0] != '['
      && core[|core| - 1] == ']' && Count(Init(core), ']') == 1
  {
    match m.alias
    case None =>
      assert Source(m)[2..] == m.target + "]]" && Init(Source(m)[2..]) == m.target + "]";
      OneClose(m.target);
    case Some(alias) =>
      assert Source(m)[2..] == m.target + "|" + alias + "]]" && Init(Source(m)[2..]) == (m.target + "|" + alias) + "]";
      OneClose(m.target + "|" + alias);
  }

  lemma OneClose(s: string)
    requires ']' !in s
    ensures Count(s + "]", ']') == 1
  {
    CountZero(s, ']');
    CountConcat(s, "]", ']');
  }

  /** Scanning on from the second character of a link finds the rest. */
  lemma MatchSkips(x: string, m: Match)
    requires MatchLink(x) == Some(m)
    ensures x != "" && FindAll(x) == [m] + FindAll(x[1..])
  {
    hide *;
    MatchIsPrefix(x);
    AfterFirst(m);
    var core, rest := Source(m)[2..], Beyond(x, m);
    Found(x, m);
    assert x[1..] == ['['] + (core + rest);
    NotOpen(core + rest);
    CharFirst('[', core + rest);
    NoOpenSkips(core, rest, {});
  }

  lemma NotOpen(x: string)
    requires x != "" && x[0] != '['
    ensures !StartsOpen(x)
  {
  }

  // ----- a link over the end of a piece ---------------------------------------------

  lemma TwoCloses(m: Match)
    requires Proper(m)
    ensures Count(Source(m), ']') == 2
  {
    AfterFirst(m);
    var core := Source(m)[2..];
    hide Source;
    assert Source(m) == "[[" + (Init(core) + "]");
    CountConcat("[[", Init(core) + "]", ']');
    CountConcat(Init(core), "]", ']');
  }

  /** Too few closing brackets for a link. */
  lemma {:induction false} FewClosesKept(p: string, wanted: set<string>)
    requires Count(p, ']') <= 1
    ensures Sub(p, wanted) == p
  {
    hide *;
    if p == "" {
      NothingToScan(wanted);
    } else {
      if MatchLink(p).Some? {
        var m := MatchLink(p).value;
        MatchIsPrefix(p);
        TwoCloses(m);
        CountConcat(Source(m), Beyond(p, m), ']');
        assert false;
      }
      assert p == [p[0]] + p[1..];
      CountConcat([p[0]], p[1..], ']');
      ScanPast(p, wanted);
      FewClosesKept(p[1..], wanted);
    }
  }

  lemma NothingToScan(wanted: set<string>)
    ensures Sub("", wanted) == "" && FindAll("") == [] && LinksOf([]) == []
  {
  }

  /** What is left of a link after at least one of its characters. */
  predicate LinkTail(rem: string) {
    && rem != "" && Last(rem) == ']' && Count(Init(rem), ']') <= 1
    && '[' !in rem[1..] && (rem[0] == '[' ==> |rem| > 1 && rem[1] != '[')
  }

  lemma TailOfTail(rem: string, k: nat)
    requires LinkTail(rem) && k < |rem|
    ensures LinkTail(rem[k..]) && Count(rem[..k], ']') <= 1
  {
    var init := Init(rem);
    assert init == init[..k] + init[k..] && rem[..k] == init[..k] && Init(rem[k..]) == init[k..];
    CountConcat(init[..k], init[k..], ']');
  }

  lemma TailsOf(m: Match, k: nat)
    requires Proper(m) && 0 < k < |Source(m)|
    ensures LinkTail(Source(m)[k..]) && Count(Source(m)[..k], ']') <= 1
  {
    AfterFirst(m);
    var s, core := Source(m), Source(m)[2..];
    hide Source;
    assert s[1..] == "[" + core && Init(s[1..]) == "[" + Init(core);
    CountConcat("[", Init(core), ']');
    assert LinkTail(s[1..]);
    TailOfTail(s[1..], k - 1);
    assert s[1..][k - 1..] == s[k..] && s[..k] == "[" + s[1..][..k - 1];
    CountConcat("[", s[1..][..k - 1], ']');
    hide LinkTail;
  }

  lemma TailSays(rem: string)
    requires LinkTail(rem)
    ensures rem != "" && '[' !in rem[1..] && (rem[0] == '[' ==> |rem| > 1 && rem[1] != '[')
  {
  }

  lemma TailKept(rem: string, more: string, wanted: set<string>)
    requires LinkTail(rem)
    ensures Sub(rem + more, wanted) == rem + Sub(more, wanted)
  {
    hide *;
    TailSays(rem);
    var x := rem + more;
    assert x == [rem[0]] + (rem[1..] + more) && x[1..] == rem[1..] + more;
    OneBracketNoMatch(x);
    ScanPast(x, wanted);
    NoOpenSkips(rem[1..], more, wanted);
  }

  lemma {:induction false} Continues(rem: string, rest: seq<string>, wanted: set<string>)
    requires LinkTail(rem) && StartsWith(Whole(rest), rem)
    ensures StartsWith(Rewritten(rest, wanted), rem)
  {
    hide Sub, LinkTail;
    TailSays(rem);
    if rest == [] {
    } else {
      var p, more := rest[0], rest[1..];
      var all := p + Whole(more);
      if |p| < |rem| {
        TailOfTail(rem, |p|);
        assert p == all[..|p|] == rem[..|p|];
        FewClosesKept(p, wanted);
        assert Whole(more) == all[|p|..];
        assert Whole(more)[..|rem| - |p|] == rem[|p|..];
        Continues(rem[|p|..], more, wanted);
        assert rem == p + rem[|p|..];
      } else {
        assert p == rem + p[|rem|..];
        TailKept(rem, p[|rem|..], wanted);
      }
    }
  }

  /** A link that runs over the end of its piece is not rewritten. */
  lemma CrossingStays(s: string, rest: seq<string>, m: Match, wanted: set<string>)
    requires s != "" && MatchLink(s).None? && MatchLink(s + Whole(rest)) == Some(m)
    ensures MatchLink(Sub(s, wanted) + Rewritten(rest, wanted)) == Some(m)
  {
    hide *;
    var all := s + Whole(rest);
    MatchIsPrefix(all);
    var source, beyond := Source(m), Beyond(all, m);
    if |source| <= |s| {
      assert s == source + s[|source|..];
      SourceMatches(m, s[|source|..]);
      assert false;
    }
    assert s == source[..|s|];
    TailsOf(m, |s|);
    FewClosesKept(s, wanted);
    Rest(s, rest, source, beyond);
    Continues(source[|s|..], rest, wanted);
    Joined(s, Rewritten(rest, wanted), source);
    SourceMatches(m, (s + Rewritten(rest, wanted))[|source|..]);
  }

  lemma Rest(s: string, rest: seq<string>, source: string, beyond: string)
    requires s + Whole(rest) == source + beyond && |s| <= |source|
    ensures StartsWith(Whole(rest), source[|s|..])
  {
    hide Whole;
    assert Whole(rest) == (s + Whole(rest))[|s|..];
    assert Whole(rest) == source[|s|..] + beyond;
  }

  lemma Joined(s: string, after: string, source: string)
    requires |s| <= |source| && s == source[..|s|] && StartsWith(after, source[|s|..])
    ensures |source| <= |s + after| && s + after == source + (s + after)[|source|..]
  {
    assert after == source[|s|..] + after[|source| - |s|..];
    assert s + after == source + after[|source| - |s|..];
  }

  // ----- nothing else is lost or gained ---------------------------------------------

  function WithLink(m: Match, links: seq<Link>): seq<Link> {
    if TargetOf(m) == "" then links else [ToLink(m)] + links
  }

  lemma LinksOfCons(m: Match, ms: seq<Match>, wanted: set<string>)
    ensures LinksOf([m] + ms) == WithLink(m, LinksOf(ms))
    ensures Unwanted([m] + ms, wanted) ==
      if TargetOf(m) in wanted then Unwanted(ms, wanted) else [m] + Unwanted(ms, wanted)
  {
    assert ([m] + ms)[1..] == ms;
    hide TargetOf, ToLink;
  }

  /** The links after the rewriting, the original ones not wanted, and the added ones. */
  function LeftOver(s: string, rest: seq<string>, wanted: set<string>): seq<Link> {
    LinksOf(FindAll(Sub(s, wanted) + Rewritten(rest, wanted)))
  }

  function Spared(s: string, rest: seq<string>, wanted: set<string>): seq<Link> {
    LinksOf(Unwanted(FindAll(s + Whole(rest)), wanted))
  }

  predicate Conserved(left: seq<Link>, spared: seq<Link>, added: seq<Link>) {
    multiset(left) == multiset(spared) + multiset(added) && (added == [] ==> left == spared)
  }

  lemma BothGrow(m: Match, left: seq<Link>, spared: seq<Link>, added: seq<Link>)
    requires Conserved(left, spared, added)
    ensures Conserved(WithLink(m, left), WithLink(m, spared), added)
    ensures Conserved(WithLink(m, left), spared, WithLink(m, added))
  {
    hide TargetOf, ToLink;
  }

  lemma LinkScanned(s: string, rest: seq<string>, m: Match, wanted: set<string>)
    requires MatchLink(s) == Some(m)
    ensures var b := Beyond(s, m);
      && Added(s, rest, wanted) == Added(b, rest, wanted)
      && if TargetOf(m) in wanted
         then LeftOver(s, rest, wanted) == LeftOver(b, rest, wanted)
              && Spared(s, rest, wanted) == Spared(b, rest, wanted)
         else LeftOver(s, rest, wanted) == WithLink(m, LeftOver(b, rest, wanted))
              && Spared(s, rest, wanted) == WithLink(m, Spared(b, rest, wanted))
  {
    hide *;
    MatchIsPrefix(s);
    PlainTextWithin(m);
    var b := Beyond(s, m);
    var before, after := b + Whole(rest), Sub(b, wanted) + Rewritten(rest, wanted);
    MatchGoesOn(s, Whole(rest), m);
    Found(s + Whole(rest), m);
    LinksOfCons(m, FindAll(before), wanted);
    LinksOfCons(m, Unwanted(FindAll(before), wanted), wanted);
    LinksOfCons(m, FindAll(after), wanted);
    Scans(s, rest, m, wanted);
    Scans2(s, rest, wanted);
    Scans2(b, rest, wanted);
    if TargetOf(m) in wanted {
      assert (PlainText(m) + Sub(b, wanted)) + Rewritten(rest, wanted) == PlainText(m) + after;
      NoOpenSkips(PlainText(m), after, wanted);
    } else {
      assert (Source(m) + Sub(b, wanted)) + Rewritten(rest, wanted) == Source(m) + after;
      SourceMatches(m, after);
      SourceLong(m);
      Found(Source(m) + after, m);
    }
  }

  lemma SourceLong(m: Match)
    ensures Source(m) != ""
  {
  }

  lemma Scans(s: string, rest: seq<string>, m: Match, wanted: set<string>)
    requires MatchLink(s) == Some(m)
    ensures Added(s, rest, wanted) == Added(Beyond(s, m), rest, wanted)
    ensures Sub(s, wanted) == (if TargetOf(m) in wanted then PlainText(m) else Source(m)) + Sub(Beyond(s, m), wanted)
  {
    hide NewAt, PlainText, Source, TargetOf, Beyond;
    assert s != "";
  }

  lemma Scans2(s: string, rest: seq<string>, wanted: set<string>)
    ensures LeftOver(s, rest, wanted) == LinksOf(FindAll(Sub(s, wanted) + Rewritten(rest, wanted)))
    ensures Spared(s, rest, wanted) == LinksOf(Unwanted(FindAll(s + Whole(rest)), wanted))
  {
  }

  /** A character that starts no link in its piece. */
  lemma CharScanned(s: string, rest: seq<string>, wanted: set<string>)
    requires s != "" && MatchLink(s).None?
    requires Conserved(LeftOver(s[1..], rest, wanted), Spared(s[1..], rest, wanted),
                       LinksOf(Added(s[1..], rest, wanted)))
    ensures Conserved(LeftOver(s, rest, wanted), Spared(s, rest, wanted), LinksOf(Added(s, rest, wanted)))
  {
    hide *;
    var before, after := s + Whole(rest), Sub(s, wanted) + Rewritten(rest, wanted);
    var before1, after1 := s[1..] + Whole(rest), Sub(s[1..], wanted) + Rewritten(rest, wanted);
    Scans2(s, rest, wanted);
    Scans2(s[1..], rest, wanted);
    ScanPast(s, wanted);
    assert before[1..] == before1 && after[1..] == after1;
    FoundAt(before, wanted);
    FoundAt(after, wanted);
    AddedAt(s, rest, wanted);
    if MatchLink(before).Some? {
      var m := MatchLink(before).value;
      CrossingStays(s, rest, m, wanted);
      LinksOfCons(m, Unwanted(FindAll(before1), wanted), wanted);
      BothGrow(m, LeftOver(s[1..], rest, wanted), Spared(s[1..], rest, wanted), LinksOf(Added(s[1..], rest, wanted)));
    } else if MatchLink(after).Some? {
      var m := MatchLink(after).value;
      BothGrow(m, LeftOver(s[1..], rest, wanted), Spared(s[1..], rest, wanted), LinksOf(Added(s[1..], rest, wanted)));
    }
  }

  lemma FoundAt(x: string, wanted: set<string>)
    requires x != ""
    ensures MatchLink(x).None? ==> FindAll(x) == FindAll(x[1..])
    ensures MatchLink(x).Some? ==> LinksOf(FindAll(x)) == WithLink(MatchLink(x).value, LinksOf(FindAll(x[1..])))
    ensures MatchLink(x).Some? ==>
      var m, more := MatchLink(x).value, Unwanted(FindAll(x[1..]), wanted);
      Unwanted(FindAll(x), wanted) == if TargetOf(m) in wanted then more else [m] + more
  {
    hide *;
    match MatchLink(x)
    case None => ScanPast(x, wanted);
    case Some(m) =>
      MatchSkips(x, m);
      LinksOfCons(m, FindAll(x[1..]), wanted);
  }

  lemma AddedAt(s: string, rest: seq<string>, wanted: set<string>)
    requires s != "" && MatchLink(s).None?
    ensures var before, after := MatchLink(s + Whole(rest)), MatchLink(Sub(s, wanted) + Rewritten(rest, wanted));
      var more := LinksOf(Added(s[1..], rest, wanted));
      LinksOf(Added(s, rest, wanted)) ==
        if after.None? || (before == after && TargetOf(after.value) !in wanted) then more
        else WithLink(after.value, more)
  {
    hide MatchLink, Whole, Rewritten, Sub, TargetOf, LinksOf, WithLink;
    match NewAt(s, rest, wanted)
    case None =>
    case Some(m) => LinksOfCons(m, Added(s[1..], rest, wanted), wanted);
  }

  /** Whatever the pieces: the links after the rewriting are the original ones that were not
    * wanted and the added ones, and in the original order if there are none of those. */
  lemma {:induction false} RewritingConserves(s: string, rest: seq<string>, wanted: set<string>)
    ensures Conserved(LeftOver(s, rest, wanted), Spared(s, rest, wanted), LinksOf(Added(s, rest, wanted)))
    decreases |rest|, |s|
  {
    hide *;
    if s == "" {
      if rest == [] {
        NothingThere(wanted);
      } else {
        NextPiece(rest, wanted);
        RewritingConserves(rest[0], rest[1..], wanted);
      }
    } else if MatchLink(s).Some? {
      var m := MatchLink(s).value;
      RewritingConserves(Beyond(s, m), rest, wanted);
      LinkScanned(s, rest, m, wanted);
      var b := Beyond(s, m);
      BothGrow(m, LeftOver(b, rest, wanted), Spared(b, rest, wanted), LinksOf(Added(b, rest, wanted)));
    } else {
      RewritingConserves(s[1..], rest, wanted);
      CharScanned(s, rest, wanted);
    }
  }

  lemma NothingThere(wanted: set<string>)
    ensures Conserved(LeftOver("", [], wanted), Spared("", [], wanted), LinksOf(Added("", [], wanted)))
  {
  }

  lemma NextPiece(rest: seq<string>, wanted: set<string>)
    requires rest != []
    ensures LeftOver("", rest, wanted) == LeftOver(rest[0], rest[1..], wanted)
    ensures Spared("", rest, wanted) == Spared(rest[0], rest[1..], wanted)
    ensures Added("", rest, wanted) == Added(rest[0], rest[1..], wanted)
  {
    hide FindAll, LinksOf, Unwanted, MatchLink, NewAt;
    NothingToScan(wanted);
    assert "" + Rewritten(rest, wanted) == Sub(rest[0], wanted) + Rewritten(rest[1..], wanted);
    assert "" + Whole(rest) == rest[0] + Whole(rest[1..]);
  }

  // ----- the pieces of a body ---------------------------------------------------------

  /** The text segments of a line. */
  function Texts(segments: seq<string>): seq<string>
    requires |segments| % 2 == 1
  {
    if |segments| == 1 then [segments[0]] else [segments[0]] + Texts(segments[2..])
  }

  /** The text segments of the lines that are not code, and the line ends. */
  function Pieces(fence: Option<char>, lines: seq<string>): seq<string>
    decreases lines
  {
    if lines == [] then []
    else
      var line := if IsCode(fence, lines[0]) then [] else Texts(SplitSpans(lines[0]));
      if |lines| == 1 then line else line + (["\n"] + Pieces(NextFence(fence, lines[0]), lines[1..]))
  }

  lemma PiecesStep(pieces: seq<string>, wanted: set<string>)
    ensures pieces == [] ==> Whole(pieces) == "" && Rewritten(pieces, wanted) == ""
    ensures pieces != [] ==> Whole(pieces) == pieces[0] + Whole(pieces[1..])
    ensures pieces != [] ==> Rewritten(pieces, wanted) == Sub(pieces[0], wanted) + Rewritten(pieces[1..], wanted)
  {
    hide Sub;
  }

  lemma {:induction false} PiecesConcat(a: seq<string>, b: seq<string>, wanted: set<string>)
    ensures Whole(a + b) == Whole(a) + Whole(b)
    ensures Rewritten(a + b, wanted) == Rewritten(a, wanted) + Rewritten(b, wanted)
  {
    hide *;
    PiecesStep(a, wanted);
    if a == [] {
      assert a + b == b;
    } else {
      assert (a + b)[1..] == a[1..] + b && (a + b)[0] == a[0];
      PiecesStep(a + b, wanted);
      PiecesConcat(a[1..], b, wanted);
    }
  }

  lemma {:induction false} TextsAreProse(segments: seq<string>, wanted: set<string>)
    requires |segments| % 2 == 1
    ensures Whole(Texts(segments)) == Prose(segments)
    ensures Rewritten(Texts(segments), wanted) == SubProse(segments, wanted)
    decreases |segments|
  {
    hide Sub;
    if |segments| == 1 {
      assert Texts(segments)[1..] == [];
    } else {
      TextsAreProse(segments[2..], wanted);
      assert Texts(segments)[1..] == Texts(segments[2..]);
    }
  }

  /** The pieces of a line make its prose, rewritten or not. */
  lemma LinePieces(line: string, wanted: set<string>)
    requires '\n' !in line
    ensures Whole(Texts(SplitSpans(line))) == RemoveSpans(line)
    ensures Rewritten(Texts(SplitSpans(line)), wanted) == RemoveSpans(SubLine(line, wanted))
    ensures '\n' !in SubLine(line, wanted)
  {
    hide *;
    SpansSurvive(line, wanted);
    TextsAreProse(SplitSpans(line), wanted);
  }

  /** The prose of the rewritten lines, with what was code still left out. */
  function KeptProse(fence: Option<char>, lines: seq<string>, wanted: set<string>): (r: seq<string>)
    ensures |r| == |lines|
    decreases lines
  {
    if lines == [] then []
    else
      [if IsCode(fence, lines[0]) then "" else RemoveSpans(SubLine(lines[0], wanted))]
      + KeptProse(NextFence(fence, lines[0]), lines[1..], wanted)
  }

  /** ... and those of a body the text that is scanned for links, and its rewriting. */
  lemma {:induction false} PiecesAreProse(fence: Option<char>, lines: seq<string>, wanted: set<string>)
    requires OneLineEach(lines)
    ensures OneLineEach(SubLines(fence, lines, wanted))
    ensures Whole(Pieces(fence, lines)) == Join(SeenProse(fence, lines), "\n")
    ensures Rewritten(Pieces(fence, lines), wanted) == Join(KeptProse(fence, lines, wanted), "\n")
    decreases lines
  {
    hide *;
    NoPieces(fence, wanted);
    if lines == [] {
      return;
    }
    var line, rest, next := lines[0], lines[1..], NextFence(fence, lines[0]);
    var after := SubLines(fence, lines, wanted);
    var own := if IsCode(fence, line) then [] else Texts(SplitSpans(line));
    FirstLine(fence, lines, wanted);
    PiecesAreProse(next, rest, wanted);
    SubLinesStep(fence, lines, wanted);
    LinePieces(line, wanted);
    SeenProseCons(fence, lines);
    assert after[1..] == SubLines(next, rest, wanted);
    JoinCons(SeenProse(fence, lines), "\n");
    JoinCons(KeptProse(fence, lines, wanted), "\n");
    MoreLines(after);
    if rest != [] {
      PiecesConcat(own, ["\n"] + Pieces(next, rest), wanted);
      LineEnd(Pieces(next, rest), wanted);
    } else {
      assert own + [] == own;
    }
  }

  /** Unless a rewritten line becomes a fence that prose is what the extractor sees. */
  lemma {:induction false} KeptIsSeen(fence: Option<char>, lines: seq<string>, wanted: set<string>)
    requires NoNewFence(fence, lines, wanted)
    ensures KeptProse(fence, lines, wanted) == SeenProse(fence, SubLines(fence, lines, wanted))
    decreases lines
  {
    hide SubLine, RemoveSpans, IsCode, NextFence, FenceChar, SeenProse;
    var after := SubLines(fence, lines, wanted);
    if lines == [] {
      NoPieces(fence, wanted);
    } else {
      KeptIsSeen(NextFence(fence, lines[0]), lines[1..], wanted);
      RewriteKeepsCode(fence, lines[0], after[0]);
      SeenProseCons(fence, after);
      FenceCases(fence, lines[0]);
      assert after[1..] == SubLines(NextFence(fence, lines[0]), lines[1..], wanted);
      assert SeenProse(fence, after) == [SeenProse(fence, after)[0]] + SeenProse(fence, after)[1..];
    }
  }

  lemma JoinCons(parts: seq<string>, sep: string)
    requires parts != []
    ensures Join(parts, sep) == if |parts| == 1 then parts[0] else parts[0] + (sep + Join(parts[1..], sep))
  {
  }

  lemma MoreLines(lines: seq<string>)
    requires lines != []
    ensures '\n' !in lines[0] && OneLineEach(lines[1..]) ==> OneLineEach(lines)
  {
    assert forall i :: 1 <= i < |lines| ==> lines[i] == lines[1..][i - 1];
  }

  lemma FirstLine(fence: Option<char>, lines: seq<string>, wanted: set<string>)
    requires lines != [] && OneLineEach(lines)
    ensures var next := NextFence(fence, lines[0]);
      && '\n' !in lines[0] && OneLineEach(lines[1..])
      && KeptProse(fence, lines, wanted)
         == [if IsCode(fence, lines[0]) then "" else RemoveSpans(SubLine(lines[0], wanted))]
            + KeptProse(next, lines[1..], wanted)
      && Pieces(fence, lines) == (if IsCode(fence, lines[0]) then [] else Texts(SplitSpans(lines[0])))
         + (if |lines| == 1 then [] else ["\n"] + Pieces(next, lines[1..]))
  {
    hide IsCode, NextFence, SubLine, SplitSpans, Texts, RemoveSpans;
  }

  lemma NoPieces(fence: Option<char>, wanted: set<string>)
    ensures Whole([]) == "" && Rewritten([], wanted) == "" && Pieces(fence, []) == []
    ensures SubLines(fence, [], wanted) == [] && SeenProse(fence, []) == [] && KeptProse(fence, [], wanted) == []
    ensures Join([], "\n") == "" && OneLineEach([])
  {
  }

  lemma LineEnd(pieces: seq<string>, wanted: set<string>)
    ensures Whole(["\n"] + pieces) == "\n" + Whole(pieces)
    ensures Rewritten(["\n"] + pieces, wanted) == "\n" + Rewritten(pieces, wanted)
  {
    PiecesStep(["\n"] + pieces, wanted);
    NoOpenSkips("\n", "", wanted);
    assert "\n" + "" == "\n" && (["\n"] + pieces)[1..] == pieces;
    hide Whole, Rewritten;
  }

  // ----- what a change of the code lines hides and reveals ------------------------------

  function LinksIn(s: string, t: string): seq<Link> {
    if s == "" then []
    else match MatchLink(s + t)
      case Some(m) => WithLink(m, LinksIn(s[1..], t))
      case None => LinksIn(s[1..], t)
  }

  /** The links that start in `s` when `t` follows, and do not when `u` does. */
  function GoneIn(s: string, t: string, u: string): seq<Link> {
    if s == "" then []
    else if MatchLink(s + t).None? || MatchLink(s + t) == MatchLink(s + u) then GoneIn(s[1..], t, u)
    else WithLink(MatchLink(s + t).value, GoneIn(s[1..], t, u))
  }

  /** What follows a line. */
  function Below(lines: seq<string>): string { if lines == [] then "" else "\n" + Join(lines, "\n") }

  /** The links that start in a line of the one text, and not there in the other. */
  function Gone(a: seq<string>, b: seq<string>): seq<Link>
    requires |a| == |b|
  {
    if a == [] then []
    else
      (if a[0] == b[0] then GoneIn(a[0], Below(a[1..]), Below(b[1..])) else LinksIn(a[0], Below(a[1..])))
      + Gone(a[1..], b[1..])
  }

  lemma {:induction false} ScanSplits(s: string, t: string)
    ensures LinksOf(FindAll(s + t)) == LinksIn(s, t) + LinksOf(FindAll(t))
  {
    hide MatchLink, FindAll, LinksOf, TargetOf, ToLink;
    if s == "" {
      assert s + t == t;
    } else {
      assert (s + t)[1..] == s[1..] + t;
      ScanSplits(s[1..], t);
      FoundAt(s + t, {});
    }
  }

  lemma {:induction false} GoneBalances(s: string, t: string, u: string)
    ensures multiset(LinksIn(s, t)) + multiset(GoneIn(s, u, t)) == multiset(LinksIn(s, u)) + multiset(GoneIn(s, t, u))
  {
    hide MatchLink, WithLink, Weight, WeightAt;
    if s == "" {
    } else {
      hide LinksIn, GoneIn;
      GoneBalances(s[1..], t, u);
      FirstCounts(s, t, u);
      FirstCounts(s, u, t);
      var at, au := WeightAt(MatchLink(s + t)), WeightAt(MatchLink(s + u));
      if MatchLink(s + t) == MatchLink(s + u) {
        Weighed(at, multiset{}, LinksIn(s[1..], t), GoneIn(s[1..], u, t), LinksIn(s[1..], u), GoneIn(s[1..], t, u));
      } else {
        Weighed(at, au, LinksIn(s[1..], t), GoneIn(s[1..], u, t), LinksIn(s[1..], u), GoneIn(s[1..], t, u));
      }
    }
  }

  function WeightAt(m: Option<Match>): multiset<Link> { if m.None? then multiset{} else Weight(m.value) }

  lemma FirstCounts(s: string, t: string, u: string)
    requires s != ""
    ensures multiset(LinksIn(s, t)) == WeightAt(MatchLink(s + t)) + multiset(LinksIn(s[1..], t))
    ensures multiset(GoneIn(s, t, u)) ==
      (if MatchLink(s + t) == MatchLink(s + u) then multiset{} else WeightAt(MatchLink(s + t)))
      + multiset(GoneIn(s[1..], t, u))
  {
    hide MatchLink, WithLink, Weight;
    if MatchLink(s + t).Some? {
      OneMore(MatchLink(s + t).value, LinksIn(s[1..], t));
      OneMore(MatchLink(s + t).value, GoneIn(s[1..], t, u));
    }
  }

  lemma Weighed(m: multiset<Link>, n: multiset<Link>, a: seq<Link>, b: seq<Link>, c: seq<Link>, d: seq<Link>)
    requires multiset(a) + multiset(b) == multiset(c) + multiset(d)
    ensures (m + multiset(a)) + (n + multiset(b)) == (n + multiset(c)) + (m + multiset(d))
    ensures (m + multiset(a)) + multiset(b) == (m + multiset(c)) + multiset(d)
  {
    forall l: Link
      ensures ((m + multiset(a)) + (n + multiset(b)))[l] == ((n + multiset(c)) + (m + multiset(d)))[l]
      ensures ((m + multiset(a)) + multiset(b))[l] == ((m + multiset(c)) + multiset(d))[l]
    {
      assert (multiset(a) + multiset(b))[l] == (multiset(c) + multiset(d))[l];
    }
  }

  /** How a link counts: not at all without a target. */
  function Weight(m: Match): multiset<Link> {
    if TargetOf(m) == "" then multiset{} else multiset{ToLink(m)}
  }

  lemma OneMore(m: Match, links: seq<Link>)
    ensures multiset(WithLink(m, links)) == Weight(m) + multiset(links)
  {
    hide TargetOf, ToLink;
  }

  lemma BelowIsLines(lines: seq<string>)
    ensures LinksOf(FindAll(Below(lines))) == LinksOf(FindAll(Join(lines, "\n")))
    ensures lines != [] ==> Join(lines, "\n") == lines[0] + Below(lines[1..])
  {
    if lines == [] {
    } else {
      JoinCons(lines, "\n");
      NoOpenSkips("\n", Join(lines, "\n"), {});
    }
    hide FindAll, LinksOf;
  }

  /** Two texts of as many lines: the links of each and what is gone from the other balance. */
  lemma {:induction false} LinesBalance(a: seq<string>, b: seq<string>)
    requires |a| == |b|
    ensures multiset(LinksOf(FindAll(Join(a, "\n")))) + multiset(Gone(b, a))
         == multiset(LinksOf(FindAll(Join(b, "\n")))) + multiset(Gone(a, b))
  {
    hide FindAll, LinksOf, Join, Below, LinksIn, GoneIn;
    if a == [] {
      assert b == [];
    } else {
      LinesBalance(a[1..], b[1..]);
      FirstLineBalances(a, b);
    }
  }

  lemma FirstLineBalances(a: seq<string>, b: seq<string>)
    requires |a| == |b| > 0
    requires multiset(LinksOf(FindAll(Join(a[1..], "\n")))) + multiset(Gone(b[1..], a[1..]))
          == multiset(LinksOf(FindAll(Join(b[1..], "\n")))) + multiset(Gone(a[1..], b[1..]))
    ensures multiset(LinksOf(FindAll(Join(a, "\n")))) + multiset(Gone(b, a))
         == multiset(LinksOf(FindAll(Join(b, "\n")))) + multiset(Gone(a, b))
  {
    var t, u := Below(a[1..]), Below(b[1..]);
    var x, y := Gone(a[1..], b[1..]), Gone(b[1..], a[1..]);
    GoneStep(a, b);
    GoneStep(b, a);
    hide *;
    BelowIsLines(a);
    BelowIsLines(b);
    BelowIsLines(a[1..]);
    BelowIsLines(b[1..]);
    ScanSplits(a[0], t);
    ScanSplits(b[0], u);
    GoneBalances(a[0], t, u);
    var l, r := LinksOf(FindAll(t)), LinksOf(FindAll(u));
    if a[0] == b[0] {
      AddBalances(LinksIn(a[0], t), l, GoneIn(b[0], u, t), y, LinksIn(b[0], u), r, GoneIn(a[0], t, u), x);
    } else {
      AddBalances(LinksIn(a[0], t), l, LinksIn(b[0], u), y, LinksIn(b[0], u), r, LinksIn(a[0], t), x);
    }
  }

  lemma AddBalances(a: seq<Link>, b: seq<Link>, c: seq<Link>, d: seq<Link>,
                    e: seq<Link>, f: seq<Link>, g: seq<Link>, h: seq<Link>)
    requires multiset(a) + multiset(c) == multiset(e) + multiset(g)
    requires multiset(b) + multiset(d) == multiset(f) + multiset(h)
    ensures multiset(a + b) + multiset(c + d) == multiset(e + f) + multiset(g + h)
  {
    forall l: Link
      ensures (multiset(a + b) + multiset(c + d))[l] == (multiset(e + f) + multiset(g + h))[l]
    {
      assert (multiset(a) + multiset(c))[l] == (multiset(e) + multiset(g))[l];
      assert (multiset(b) + multiset(d))[l] == (multiset(f) + multiset(h))[l];
    }
  }

  lemma GoneStep(a: seq<string>, b: seq<string>)
    requires |a| == |b| > 0
    ensures Gone(a, b) ==
      (if a[0] == b[0] then GoneIn(a[0], Below(a[1..]), Below(b[1..])) else LinksIn(a[0], Below(a[1..])))
      + Gone(a[1..], b[1..])
  {
    hide GoneIn, LinksIn, Below;
  }

  lemma {:induction false} NothingGoneIn(s: string, t: string)
    ensures GoneIn(s, t, t) == []
  {
    hide MatchLink;
    if s == "" {
    } else {
      NothingGoneIn(s[1..], t);
    }
  }

  lemma {:induction false} NothingGone(a: seq<string>)
    ensures Gone(a, a) == []
  {
    if a == [] {
    } else {
      NothingGoneIn(a[0], Below(a[1..]));
      NothingGone(a[1..]);
    }
  }

  // ----- the downgrade of a body -------------------------------------------------------

  function AddedLinks(body: string, wanted: set<string>): seq<Link> {
    LinksOf(Added("", Pieces(None, Split(body, '\n')), wanted))
  }

  /** The links that a new fence hides, and those it reveals. */
  function HiddenLinks(body: string, wanted: set<string>): seq<Link> {
    var lines := Split(body, '\n');
    Gone(KeptProse(None, lines, wanted), SeenProse(None, SubLines(None, lines, wanted)))
  }

  function RevealedLinks(body: string, wanted: set<string>): seq<Link> {
    var lines := Split(body, '\n');
    Gone(SeenProse(None, SubLines(None, lines, wanted)), KeptProse(None, lines, wanted))
  }

  /** The links of the rewritten prose are the original ones that were not wanted and the
    * added ones. */
  lemma ProseConserves(body: string, wanted: set<string>)
    ensures Conserved(LinksOf(FindAll(Join(KeptProse(None, Split(body, '\n'), wanted), "\n"))),
                      LinksMinus(ExtractedLinks(body), wanted), AddedLinks(body, wanted))
    ensures ExtractedLinks(Downgraded(body, wanted))
         == LinksOf(FindAll(Join(SeenProse(None, SubLines(None, Split(body, '\n'), wanted)), "\n")))
  {
    hide *;
    var lines := Split(body, '\n');
    var pieces := Pieces(None, lines);
    JoinSplit(body, '\n');
    LinesOf(body, wanted);
    PiecesAreProse(None, lines, wanted);
    ExtractProse(lines);
    ExtractProse(SubLines(None, lines, wanted));
    RewritingConserves("", pieces, wanted);
    Scans2("", pieces, wanted);
    NothingToScan(wanted);
    assert "" + Whole(pieces) == Whole(pieces) && "" + Rewritten(pieces, wanted) == Rewritten(pieces, wanted);
    LinksOfUnwanted(FindAll(Whole(pieces)), wanted);
  }

  /** For every body: the links after a downgrade and the hidden ones are the original ones
    * that were not wanted, the added and the revealed ones, each as often. */
  lemma DowngradeBalances(body: string, wanted: set<string>)
    ensures multiset(ExtractedLinks(Downgraded(body, wanted))) + multiset(HiddenLinks(body, wanted))
         == multiset(LinksMinus(ExtractedLinks(body), wanted))
            + multiset(AddedLinks(body, wanted)) + multiset(RevealedLinks(body, wanted))
  {
    var lines := Split(body, '\n');
    hide ExtractedLinks, Downgraded, LinksMinus, AddedLinks, LinksOf, FindAll, Gone, KeptProse, RemoveSpans, SubLines,
      Split, Join;
    ProseConserves(body, wanted);
    LinesBalance(KeptProse(None, lines, wanted), SeenProse(None, SubLines(None, lines, wanted)));
  }

  /** Unless a rewritten line becomes a fence, nothing is hidden or revealed. */
  lemma NoFenceHidesNothing(body: string, wanted: set<string>)
    requires NoNewFence(None, Split(body, '\n'), wanted)
    ensures HiddenLinks(body, wanted) == [] && RevealedLinks(body, wanted) == []
  {
    hide Split, Gone, KeptProse, SeenProse, SubLines, NoNewFence;
    KeptIsSeen(None, Split(body, '\n'), wanted);
    NothingGone(KeptProse(None, Split(body, '\n'), wanted));
  }

  /** The downgrade leaves the links it should, each as often, if and only if what it adds and
    * reveals is what it hides. */
  lemma RightUpToOrder(body: string, wanted: set<string>)
    ensures var left, spared := ExtractedLinks(Downgraded(body, wanted)), LinksMinus(ExtractedLinks(body), wanted);
      multiset(left) == multiset(spared) <==>
      multiset(HiddenLinks(body, wanted))
        == multiset(AddedLinks(body, wanted)) + multiset(RevealedLinks(body, wanted))
  {
    hide *;
    DowngradeBalances(body, wanted);
    Cancels(multiset(ExtractedLinks(Downgraded(body, wanted))), multiset(HiddenLinks(body, wanted)),
            multiset(LinksMinus(ExtractedLinks(body), wanted)),
            multiset(AddedLinks(body, wanted)) + multiset(RevealedLinks(body, wanted)));
  }

  lemma Cancels(left: multiset<Link>, hidden: multiset<Link>, spared: multiset<Link>, more: multiset<Link>)
    requires left + hidden == spared + more
    ensures left == spared <==> hidden == more
  {
    if left == spared {
      forall l
        ensures hidden[l] == more[l]
      {
        assert (left + hidden)[l] == (spared + more)[l];
      }
    }
    if hidden == more {
      forall l
        ensures left[l] == spared[l]
      {
        assert (left + hidden)[l] == (spared + more)[l];
      }
    }
  }

  /** The links of a downgraded body are the original ones that were not wanted and the added
    * ones, in the original order if there are none of those. */
  lemma DowngradeConserves(body: string, wanted: set<string>)
    requires NoNewFence(None, Split(body, '\n'), wanted)
    ensures Conserved(ExtractedLinks(Downgraded(body, wanted)), LinksMinus(ExtractedLinks(body), wanted),
                      AddedLinks(body, wanted))
  {
    hide *;
    ProseConserves(body, wanted);
    KeptIsSeen(None, Split(body, '\n'), wanted);
  }

  lemma LinesOf(body: string, wanted: set<string>)
    ensures var lines := Split(body, '\n');
      && OneLineEach(lines) && Downgraded(body, wanted) == Join(SubLines(None, lines, wanted), "\n")
      && AddedLinks(body, wanted) == LinksOf(Added("", Pieces(None, lines), wanted))
  {
    hide Added, Pieces, SubLines, Join;
  }

  /** The downgrade removes exactly the wanted links if and only if it adds none: no wanted
    * link runs over a code span or a line end, and none is made of what is around another. */
  lemma ExactUnlessAdded(body: string, wanted: set<string>)
    requires NoNewFence(None, Split(body, '\n'), wanted)
    ensures ExtractedLinks(Downgraded(body, wanted)) == LinksMinus(ExtractedLinks(body), wanted) <==>
            AddedLinks(body, wanted) == []
  {
    hide *;
    DowngradeConserves(body, wanted);
    OnlyIfNoneAdded(ExtractedLinks(Downgraded(body, wanted)), LinksMinus(ExtractedLinks(body), wanted),
                    AddedLinks(body, wanted));
  }

  lemma OnlyIfNoneAdded(left: seq<Link>, spared: seq<Link>, added: seq<Link>)
    requires Conserved(left, spared, added)
    ensures left == spared <==> added == []
  {
    assert |multiset(left)| == |multiset(spared)| + |multiset(added)|;
  }

  lemma {:induction false} NoneDangling(links: seq<Link>, existing: set<string>, created: set<string>)
    ensures Dangling(links, existing, created) == [] <==> forall l :: l in links ==> Resolves(l, existing, created)
  {
    hide Resolves;
    if links == [] {
    } else {
      NoneDangling(links[1..], existing, created);
      assert links == [links[0]] + links[1..];
    }
  }

  lemma {:induction false} MinusResolves(links: seq<Link>, wanted: set<string>, existing: set<string>,
                                         created: set<string>)
    requires TargetsOf(Dangling(links, existing, created)) <= wanted
    ensures forall l :: l in LinksMinus(links, wanted) ==> Resolves(l, existing, created)
  {
    DanglingMinus(links, wanted, existing, created);
    NoneDangling(LinksMinus(links, wanted), existing, created);
  }

  lemma {:induction false} DanglingCounts(links: seq<Link>, existing: set<string>, created: set<string>, l: Link)
    ensures multiset(Dangling(links, existing, created))[l]
         == if Resolves(l, existing, created) then 0 else multiset(links)[l]
  {
    hide Resolves;
    if links == [] {
    } else {
      DanglingCounts(links[1..], existing, created, l);
      assert links == [links[0]] + links[1..];
    }
  }

  /** For every body: the link check after the repair is clean if and only if the dangling
    * links that it adds and reveals are those that it hides. */
  lemma ClearsExactly(body: string, existing: set<string>, created: set<string>)
    ensures var wanted := TargetsOf(Dangling(ExtractedLinks(body), existing, created));
      Dangling(ExtractedLinks(Downgraded(body, wanted)), existing, created) == [] <==>
      multiset(Dangling(HiddenLinks(body, wanted), existing, created))
        == multiset(Dangling(AddedLinks(body, wanted), existing, created))
           + multiset(Dangling(RevealedLinks(body, wanted), existing, created))
  {
    hide *;
    var wanted := TargetsOf(Dangling(ExtractedLinks(body), existing, created));
    DowngradeBalances(body, wanted);
    MinusResolves(ExtractedLinks(body), wanted, existing, created);
    DanglingBalance(ExtractedLinks(Downgraded(body, wanted)), HiddenLinks(body, wanted),
                    LinksMinus(ExtractedLinks(body), wanted), AddedLinks(body, wanted), RevealedLinks(body, wanted),
                    existing, created);
  }

  lemma DanglingBalance(left: seq<Link>, hidden: seq<Link>, spared: seq<Link>, added: seq<Link>, revealed: seq<Link>,
                        existing: set<string>, created: set<string>)
    requires multiset(left) + multiset(hidden) == multiset(spared) + multiset(added) + multiset(revealed)
    requires forall l :: l in spared ==> Resolves(l, existing, created)
    ensures Dangling(left, existing, created) == [] <==>
      multiset(Dangling(hidden, existing, created))
        == multiset(Dangling(added, existing, created)) + multiset(Dangling(revealed, existing, created))
  {
    hide Resolves, Dangling;
    var a, b, c, d := Dangling(left, existing, created), Dangling(hidden, existing, created),
      Dangling(added, existing, created), Dangling(revealed, existing, created);
    forall l: Link
      ensures multiset(a)[l] + multiset(b)[l] == multiset(c)[l] + multiset(d)[l]
    {
      DanglingCounts(left, existing, created, l);
      DanglingCounts(hidden, existing, created, l);
      DanglingCounts(added, existing, created, l);
      DanglingCounts(revealed, existing, created, l);
      assert (multiset(left) + multiset(hidden))[l] == (multiset(spared) + multiset(added) + multiset(revealed))[l];
      assert l in spared <==> multiset(spared)[l] > 0;
    }
    NoneMeansAll(a, multiset(b), multiset(c) + multiset(d));
  }

  lemma NoneMeansAll(left: seq<Link>, hidden: multiset<Link>, more: multiset<Link>)
    requires forall l: Link :: multiset(left)[l] + hidden[l] == more[l]
    ensures left == [] <==> hidden == more
  {
    if left == [] {
      assert forall l: Link :: multiset(left)[l] == 0;
    } else {
      assert left[0] in multiset(left);
      assert hidden[left[0]] != more[left[0]];
    }
  }

  /** The link check of a repaired body is clean if and only if every added link resolves. */
  lemma ClearsUnlessAdded(body: string, existing: set<string>, created: set<string>)
    requires var wanted := TargetsOf(Dangling(ExtractedLinks(body), existing, created));
      NoNewFence(None, Split(body, '\n'), wanted)
    ensures var wanted := TargetsOf(Dangling(ExtractedLinks(body), existing, created));
      Dangling(ExtractedLinks(Downgraded(body, wanted)), existing, created) == [] <==>
      Dangling(AddedLinks(body, wanted), existing, created) == []
  {
    hide *;
    var wanted := TargetsOf(Dangling(ExtractedLinks(body), existing, created));
    var left, spared, added := ExtractedLinks(Downgraded(body, wanted)), LinksMinus(ExtractedLinks(body), wanted),
      AddedLinks(body, wanted);
    DowngradeConserves(body, wanted);
    MinusResolves(ExtractedLinks(body), wanted, existing, created);
    NoneDangling(left, existing, created);
    NoneDangling(added, existing, created);
    SameMembers(left, spared, added);
  }

  lemma SameMembers(left: seq<Link>, spared: seq<Link>, added: seq<Link>)
    requires Conserved(left, spared, added)
    ensures forall l :: l in left <==> l in spared || l in added
  {
    assert forall l :: l in left <==> l in multiset(left);
  }

  /** A plain condition: when every "[[" starts a link in its piece, nothing is added. */
  lemma NothingAdded(body: string, wanted: set<string>)
    requires LinksStayInside(None, Split(body, '\n')) && NoNewFence(None, Split(body, '\n'), wanted)
    ensures AddedLinks(body, wanted) == []
  {
    hide *;
    DowngradeIsExact(body, wanted);
    ExactUnlessAdded(body, wanted);
  }

  // ----- what a downgrade reports -----------------------------------------------------

  /** The targets of those matches that are wanted, in order. */
  function WantedIn(ms: seq<Match>, wanted: set<string>): seq<string> {
    if ms == [] then []
    else if TargetOf(ms[0]) in wanted then [TargetOf(ms[0])] + WantedIn(ms[1..], wanted)
    else WantedIn(ms[1..], wanted)
  }

  /** The wanted links that the extractor's scan finds in each piece by itself. */
  function FoundIn(pieces: seq<string>, wanted: set<string>): seq<string> {
    if pieces == [] then [] else WantedIn(FindAll(pieces[0]), wanted) + FoundIn(pieces[1..], wanted)
  }

  lemma {:induction false} SubReports(s: string, wanted: set<string>)
    ensures SubTargets(s, wanted) == WantedIn(FindAll(s), wanted)
    ensures SubTargets(s, wanted) == [] ==> Sub(s, wanted) == s
    decreases |s|
  {
    hide TargetOf, PlainText, Source;
    if s == "" {
    } else {
      match MatchLink(s)
      case None => SubReports(s[1..], wanted);
      case Some(m) =>
        SubReports(Beyond(s, m), wanted);
        assert ([m] + FindAll(Beyond(s, m)))[1..] == FindAll(Beyond(s, m));
        hide MatchLink;
    }
  }

  lemma {:induction false} FoundConcat(a: seq<string>, b: seq<string>, wanted: set<string>)
    ensures FoundIn(a + b, wanted) == FoundIn(a, wanted) + FoundIn(b, wanted)
  {
    hide WantedIn, FindAll;
    if a == [] {
      assert a + b == b;
    } else {
      assert (a + b)[0] == a[0] && (a + b)[1..] == a[1..] + b;
      FoundConcat(a[1..], b, wanted);
    }
  }

  lemma {:induction false} SegmentsReport(segments: seq<string>, wanted: set<string>)
    requires |segments| % 2 == 1
    ensures SegmentTargets(segments, wanted) == FoundIn(Texts(segments), wanted)
    ensures SegmentTargets(segments, wanted) == [] ==> SubSegments(segments, wanted) == SubSegments(segments, {})
    decreases |segments|
  {
    hide SubTargets, WantedIn, FindAll, Sub;
    SubSegmentsStep(segments, wanted);
    SubSegmentsStep(segments, {});
    SubReports(segments[0], wanted);
    SubShrinks(segments[0], {}, 'x');
    if |segments| == 1 {
      assert Texts(segments)[1..] == [] && FoundIn([], wanted) == [];
    } else {
      SegmentsReport(segments[2..], wanted);
      assert Texts(segments)[1..] == Texts(segments[2..]);
    }
  }

  lemma LineReports(line: string, wanted: set<string>)
    ensures LineTargets(line, wanted) == FoundIn(Texts(SplitSpans(line)), wanted)
    ensures LineTargets(line, wanted) == [] ==> SubLine(line, wanted) == line
  {
    hide *;
    SegmentsReport(SplitSpans(line), wanted);
    LineSegments(line, wanted);
    NothingWantedInLine(line);
  }

  lemma LineEndReports(wanted: set<string>)
    ensures FoundIn(["\n"], wanted) == [] && FoundIn([], wanted) == []
  {
    assert MatchLink("\n").None? && FindAll("\n") == FindAll("\n"[1..]) == [];
    assert FoundIn(["\n"][1..], wanted) == [];
  }

  lemma {:induction false} LinesReport(fence: Option<char>, lines: seq<string>, wanted: set<string>)
    ensures LinesTargets(fence, lines, wanted) == FoundIn(Pieces(fence, lines), wanted)
    ensures LinesTargets(fence, lines, wanted) == [] ==> SubLines(fence, lines, wanted) == lines
    decreases lines
  {
    hide LineTargets, SubLine, SplitSpans, Texts, FoundIn, IsCode, NextFence;
    LineEndReports(wanted);
    if lines == [] {
    } else {
      var next := NextFence(fence, lines[0]);
      LineReports(lines[0], wanted);
      LinesReport(next, lines[1..], wanted);
      var line := if IsCode(fence, lines[0]) then [] else Texts(SplitSpans(lines[0]));
      FoundConcat(["\n"], Pieces(next, lines[1..]), wanted);
      FoundConcat(line, ["\n"] + Pieces(next, lines[1..]), wanted);
    }
  }

  /** For every body: the targets a downgrade reports are those of the wanted links that a scan
    * of each text segment outside code finds, in order, and it reports none if and only if it
    * changes nothing. */
  lemma ReportsExactly(body: string, wanted: set<string>)
    ensures DowngradedTargets(body, wanted) == FoundIn(Pieces(None, Split(body, '\n')), wanted)
    ensures DowngradedTargets(body, wanted) == [] <==> Downgraded(body, wanted) == body
  {
    LinesReport(None, Split(body, '\n'), wanted);
    DowngradeShrinks(body, wanted);
    JoinSplit(body, '\n');
    hide LinesTargets, SubLines, Pieces, FoundIn;
  }
}
