/** The two scanners agree about code, and rewriting removes exactly the wanted links. */
module LinkTheorems {
  import opened Prelude
  import opened Text
  import opened Links

  // ----- agreement about code -------------------------------------------------------

  /** The extractor blanks exactly the lines the rewriter copies as code. */
  lemma {:induction false} ScannersAgree(fence: Option<char>, lines: seq<string>, wanted: set<string>, i: nat)
    requires i < |lines|
    ensures BlankCode(fence, lines)[i] == if CodeLines(fence, lines)[i] then "" else lines[i]
    ensures SubLines(fence, lines, wanted)[i]
         == if CodeLines(fence, lines)[i] then lines[i] else SubLine(lines[i], wanted)
    decreases lines
  {
    hide IsCode, NextFence, SubLine;
    if i > 0 {
      ScannersAgree(NextFence(fence, lines[0]), lines[1..], wanted, i - 1);
    }
  }

  // ----- substitution inside a segment ----------------------------------------------

  /** `t` is a slice of `s`. */
  ghost predicate Within(t: string, s: string) {
    exists i, j :: 0 <= i <= j <= |s| && t == s[i..j]
  }

  lemma SplitHeadIsPrefix(s: string, c: char)
    ensures |Split(s, c)[0]| <= |s| && Split(s, c)[0] == s[..|Split(s, c)[0]|]
  {
  }

  lemma StripWithin(s: string)
    ensures Within(Strip(s), s)
  {
    StripLeftIsSuffix(s);
    var left := StripLeft(s);
    StripRightIsPrefix(left);
    var i := |s| - |left|;
    assert Strip(s) == s[i..i + |Strip(s)|];
  }

  lemma WithinTrans(a: string, b: string, c: string)
    requires Within(a, b) && Within(b, c)
    ensures Within(a, c)
  {
    var i, j :| 0 <= i <= j <= |b| && a == b[i..j];
    var k, l :| 0 <= k <= l <= |c| && b == c[k..l];
    assert forall x :: 0 <= x < j - i ==> a[x] == b[i + x] == c[k + i + x];
    assert a == c[k + i..k + j];
  }

  /** A link's plain text is a slice of its target or of its alias. */
  lemma PlainTextWithin(m: Match)
    requires Proper(m)
    ensures Within(PlainText(m), Source(m)) && |PlainText(m)| + 4 <= |Source(m)| && NoBrackets(PlainText(m))
  {
    SplitHeadIsPrefix(m.target, '#');
    var head := Split(m.target, '#')[0];
    assert head == m.target[0..|head|];
    StripWithin(head);
    WithinTrans(TargetOf(m), head, m.target);
    assert m.target == Source(m)[2..2 + |m.target|];
    WithinTrans(TargetOf(m), m.target, Source(m));
    if m.alias.Some? {
      StripWithin(m.alias.value);
      assert m.alias.value == Source(m)[3 + |m.target|..3 + |m.target| + |m.alias.value|];
      WithinTrans(AliasOf(m), m.alias.value, Source(m));
    }
  }

  /** How often `c` occurs. */
  function Count(s: string, c: char): nat {
    if s == "" then 0 else (if s[0] == c then 1 else 0) + Count(s[1..], c)
  }

  lemma {:induction false} CountConcat(s: string, t: string, c: char)
    ensures Count(s + t, c) == Count(s, c) + Count(t, c)
  {
    if s == "" {
      assert s + t == t;
    } else {
      assert (s + t)[1..] == s[1..] + t;
      CountConcat(s[1..], t, c);
    }
  }

  lemma CountWithin(t: string, s: string, c: char)
    requires Within(t, s)
    ensures Count(t, c) <= Count(s, c)
  {
    var i, j :| 0 <= i <= j <= |s| && t == s[i..j];
    assert s == s[..i] + (t + s[j..]);
    CountConcat(s[..i], t + s[j..], c);
    CountConcat(t, s[j..], c);
  }

  lemma {:induction false} CountZero(s: string, c: char)
    ensures Count(s, c) == 0 <==> c !in s
  {
    if s == "" {
    } else {
      CountZero(s[1..], c);
      assert s == [s[0]] + s[1..];
    }
  }

  /** Each rewritten link shortens a segment by at least four characters, and a segment
    * gains no character it did not have. */
  lemma {:induction false} SubShrinks(s: string, wanted: set<string>, c: char)
    ensures |Sub(s, wanted)| + 4 * |SubTargets(s, wanted)| <= |s|
    ensures Count(Sub(s, wanted), c) <= Count(s, c)
    ensures wanted == {} ==> Sub(s, wanted) == s
  {
    if s == "" {
    } else {
      match MatchLink(s)
      case Some(m) =>
        var rest := Beyond(s, m);
        var first := if TargetOf(m) in wanted then PlainText(m) else Source(m);
        SubShrinks(rest, wanted, c);
        RewriteShrinks(s, wanted, c);
        hide Source, PlainText, TargetOf;
        CountConcat(Source(m), rest, c);
        CountConcat(first, Sub(rest, wanted), c);
      case None =>
        SubShrinks(s[1..], wanted, c);
        assert s == [s[0]] + s[1..];
        CountConcat([s[0]], s[1..], c);
        CountConcat([s[0]], Sub(s[1..], wanted), c);
    }
  }

  lemma RewriteShrinks(s: string, wanted: set<string>, c: char)
    requires MatchLink(s).Some?
    ensures var m := MatchLink(s).value;
      |PlainText(m)| + 4 <= |Source(m)| && Count(PlainText(m), c) <= Count(Source(m), c)
  {
    MatchIsPrefix(s);
    PlainTextWithin(MatchLink(s).value);
    CountWithin(PlainText(MatchLink(s).value), Source(MatchLink(s).value), c);
  }

  lemma SubAddsNothing(s: string, wanted: set<string>, c: char)
    requires c !in s
    ensures c !in Sub(s, wanted)
  {
    SubShrinks(s, wanted, c);
    CountZero(s, c);
    CountZero(Sub(s, wanted), c);
  }

  // ----- well-bracketed text --------------------------------------------------------

  predicate StartsOpen(s: string) { s != "" && s[0] == '[' }

  predicate EndsOpen(s: string) { s != "" && Last(s) == '[' }

  /** Every "[[" starts a link. */
  predicate WellBracketed(s: string) {
    if s == "" then true
    else match MatchLink(s)
      case Some(m) => WellBracketed(Beyond(s, m))
      case None => !StartsWith(s, "[[") && WellBracketed(s[1..])
  }

  lemma {:induction false} TargetLenOf(target: string, rest: string)
    requires NoBrackets(target) && '|' !in target
    requires rest != "" && (rest[0] == ']' || rest[0] == '|')
    ensures TargetLen(target + rest) == |target|
  {
    if target == "" {
      assert target + rest == rest;
    } else {
      assert (target + rest)[1..] == target[1..] + rest;
      TargetLenOf(target[1..], rest);
    }
  }

  lemma {:induction false} AliasLenOf(alias: string, rest: string)
    requires NoBrackets(alias) && rest != "" && rest[0] == ']'
    ensures AliasLen(alias + rest) == |alias|
  {
    if alias == "" {
      assert alias + rest == rest;
    } else {
      assert (alias + rest)[1..] == alias[1..] + rest;
      AliasLenOf(alias[1..], rest);
    }
  }

  lemma Cut(a: string, b: string)
    ensures (a + b)[..|a|] == a && (a + b)[|a|..] == b && StartsWith(a + b, a)
  {
  }

  lemma BareMatch(target: string, rest: string)
    requires target != "" && NoBrackets(target) && '|' !in target
    ensures MatchLink("[[" + (target + ("]]" + rest))) == Some(Match(target, None))
  {
    var after := "]]" + rest;
    Cut("[[", target + after);
    Cut(target, after);
    Cut("]]", rest);
    TargetLenOf(target, after);
  }

  lemma AliasedMatch(target: string, alias: string, rest: string)
    requires target != "" && NoBrackets(target) && '|' !in target && NoBrackets(alias)
    ensures MatchLink("[[" + (target + ("|" + (alias + ("]]" + rest))))) == Some(Match(target, Some(alias)))
  {
    var end := "]]" + rest;
    var after := "|" + (alias + end);
    Cut("[[", target + after);
    Cut(target, after);
    Cut("|", alias + end);
    Cut(alias, end);
    Cut("]]", rest);
    TargetLenOf(target, after);
    AliasLenOf(alias, end);
    assert after[0] == '|' && !StartsWith(after, "]]");
  }

  /** A link is matched wherever it stands, whatever follows it. */
  lemma SourceMatches(m: Match, rest: string)
    requires Proper(m)
    ensures MatchLink(Source(m) + rest) == Some(m)
    ensures Beyond(Source(m) + rest, m) == rest
  {
    match m.alias
    case None =>
      BareMatch(m.target, rest);
      BareSource("[[" + (m.target + ("]]" + rest)), m.target, rest);
    case Some(alias) =>
      AliasedMatch(m.target, alias, rest);
      AliasedSource("[[" + (m.target + ("|" + (alias + ("]]" + rest)))), m.target, alias, rest);
    Cut(Source(m), rest);
  }

  lemma NoBracketNoMatch(s: string)
    requires s != "" && s[0] != '['
    ensures MatchLink(s).None?
  {
  }

  lemma OneBracketNoMatch(s: string)
    requires |s| <= 1 || s[0] != '[' || s[1] != '['
    ensures MatchLink(s).None? && !StartsWith(s, "[[")
  {
  }

  lemma ScanPast(s: string, wanted: set<string>)
    requires s != "" && MatchLink(s).None?
    ensures Sub(s, wanted) == [s[0]] + Sub(s[1..], wanted) && FindAll(s) == FindAll(s[1..])
  {
    hide MatchLink;
  }

  lemma Found(x: string, m: Match)
    requires MatchLink(x) == Some(m)
    ensures x != "" && FindAll(x) == [m] + FindAll(Beyond(x, m))
  {
    hide Source;
  }

  lemma WellBracketedStep(s: string)
    requires s != ""
    ensures WellBracketed(s) <==>
      if MatchLink(s).Some? then WellBracketed(Beyond(s, MatchLink(s).value))
      else !StartsWith(s, "[[") && WellBracketed(s[1..])
  {
    hide MatchLink, Source, StartsWith;
  }

  /** A first character that neither starts nor completes a "[[". */
  lemma CharFirst(c: char, s: string)
    requires c == '[' ==> !StartsOpen(s)
    ensures MatchLink([c] + s).None? && FindAll([c] + s) == FindAll(s)
    ensures WellBracketed([c] + s) <==> WellBracketed(s)
  {
    OneBracketNoMatch([c] + s);
    hide MatchLink;
    assert ([c] + s)[1..] == s;
  }

  /** Scanning well-bracketed text never looks past its end. */
  lemma {:induction false} FindAllConcat(s: string, t: string)
    requires WellBracketed(s) && (EndsOpen(s) ==> !StartsOpen(t))
    ensures FindAll(s + t) == FindAll(s) + FindAll(t)
    ensures WellBracketed(t) ==> WellBracketed(s + t)
    decreases |s|
  {
    hide *;
    if s == "" {
      assert s + t == t;
      NothingFound();
      return;
    }
    WellBracketedStep(s);
    if MatchLink(s).Some? {
      var m := MatchLink(s).value;
      var rest := Beyond(s, m);
      MatchGoesOn(s, t, m);
      Found(s, m);
      Found(s + t, m);
      WellBracketedStep(s + t);
      MatchIsPrefix(s);
      AfterLink(s, m);
      FindAllConcat(rest, t);
      assert [m] + (FindAll(rest) + FindAll(t)) == ([m] + FindAll(rest)) + FindAll(t);
    } else {
      assert s + t == [s[0]] + (s[1..] + t) && s == [s[0]] + s[1..];
      CharStandsAlone(s, t);
      CharFirst(s[0], s[1..] + t);
      CharFirst(s[0], s[1..]);
      FindAllConcat(s[1..], t);
    }
  }

  lemma NothingFound()
    ensures FindAll("") == [] && WellBracketed("")
  {
  }

  lemma AfterLink(s: string, m: Match)
    requires MatchLink(s) == Some(m)
    ensures EndsOpen(Beyond(s, m)) ==> EndsOpen(s)
  {
    MatchIsPrefix(s);
    hide MatchLink, Source;
  }

  lemma CharStandsAlone(s: string, t: string)
    requires s != "" && !StartsWith(s, "[[") && (EndsOpen(s) ==> !StartsOpen(t))
    ensures s[0] == '[' ==> !StartsOpen(s[1..]) && !StartsOpen(s[1..] + t)
    ensures EndsOpen(s[1..]) ==> EndsOpen(s)
  {
  }

  /** What follows a string does not change the match at its start. */
  lemma MatchGoesOn(s: string, t: string, m: Match)
    requires MatchLink(s) == Some(m)
    ensures MatchLink(s + t) == Some(m) && Beyond(s + t, m) == Beyond(s, m) + t
  {
    hide *;
    MatchIsPrefix(s);
    var rest := Beyond(s, m);
    assert s + t == Source(m) + (rest + t);
    SourceMatches(m, rest + t);
  }

  lemma {:induction false} NoBracketsNoLinks(s: string)
    requires NoBrackets(s)
    ensures WellBracketed(s) && FindAll(s) == [] && !EndsOpen(s)
  {
    if s == "" {
    } else {
      NoBracketNoMatch(s);
      NoBracketsNoLinks(s[1..]);
    }
  }

  /** A lone link is well bracketed and is found. */
  lemma LinkAlone(m: Match)
    requires Proper(m)
    ensures WellBracketed(Source(m)) && FindAll(Source(m)) == [m] && !EndsOpen(Source(m))
  {
    SourceMatches(m, "");
    assert Source(m) + "" == Source(m);
    hide Source, MatchLink;
  }

  /** The matches whose target is not wanted. */
  function Unwanted(ms: seq<Match>, wanted: set<string>): seq<Match> {
    if ms == [] then []
    else if TargetOf(ms[0]) in wanted then Unwanted(ms[1..], wanted)
    else [ms[0]] + Unwanted(ms[1..], wanted)
  }

  lemma {:induction false} UnwantedConcat(a: seq<Match>, b: seq<Match>, wanted: set<string>)
    ensures Unwanted(a + b, wanted) == Unwanted(a, wanted) + Unwanted(b, wanted)
  {
    if a == [] {
      assert a + b == b;
    } else {
      assert (a + b)[1..] == a[1..] + b;
      UnwantedConcat(a[1..], b, wanted);
      hide TargetOf;
    }
  }

  /** What a text and its rewriting have to do with each other. */
  predicate Removed(s: string, after: string, wanted: set<string>) {
    && WellBracketed(after) && FindAll(after) == Unwanted(FindAll(s), wanted)
    && (EndsOpen(after) ==> EndsOpen(s)) && (!StartsOpen(s) ==> !StartsOpen(after) && (after == "" <==> s == ""))
  }

  lemma LinkFirst(s: string, m: Match, after: string, wanted: set<string>)
    requires MatchLink(s) == Some(m) && Removed(Beyond(s, m), after, wanted)
    ensures Removed(s, (if TargetOf(m) in wanted then PlainText(m) else Source(m)) + after, wanted)
  {
    var first := if TargetOf(m) in wanted then PlainText(m) else Source(m);
    var rest := Beyond(s, m);
    MatchIsPrefix(s);
    PlainTextWithin(m);
    assert FindAll(s) == [m] + FindAll(rest) && StartsOpen(s);
    hide *;
    if TargetOf(m) in wanted {
      NoBracketsNoLinks(first);
    } else {
      LinkAlone(m);
    }
    FirstLinkRemoved(s, first, rest, m, after, wanted);
  }

  lemma FirstLinkRemoved(s: string, first: string, rest: string, m: Match, after: string, wanted: set<string>)
    requires Removed(rest, after, wanted) && FindAll(s) == [m] + FindAll(rest) && StartsOpen(s)
    requires WellBracketed(first) && !EndsOpen(first) && s == Source(m) + rest
    requires FindAll(first) == if TargetOf(m) in wanted then [] else [m]
    ensures Removed(s, first + after, wanted)
  {
    hide WellBracketed, FindAll, Source, TargetOf;
    FindAllConcat(first, after);
    assert ([m] + FindAll(rest))[1..] == FindAll(rest);
  }

  /** Rewriting a well-bracketed segment removes exactly the wanted links. */
  lemma {:induction false} SubRemovesWanted(s: string, wanted: set<string>)
    requires WellBracketed(s)
    ensures Removed(s, Sub(s, wanted), wanted)
    decreases |s|
  {
    hide MatchLink, Source, PlainText, TargetOf, FindAll, Unwanted, Removed;
    if s == "" {
      NothingRemoved(wanted);
    } else {
      match MatchLink(s)
      case Some(m) =>
        SubRemovesWanted(Beyond(s, m), wanted);
        LinkFirst(s, m, Sub(Beyond(s, m), wanted), wanted);
      case None =>
        SubRemovesWanted(s[1..], wanted);
        assert s == [s[0]] + s[1..];
        CharKept(s[0], s[1..], Sub(s[1..], wanted), wanted);
    }
  }

  lemma NothingRemoved(wanted: set<string>)
    ensures Removed("", "", wanted)
  {
  }

  lemma CharKept(c: char, s: string, after: string, wanted: set<string>)
    requires Removed(s, after, wanted) && (c == '[' ==> !StartsOpen(s))
    ensures Removed([c] + s, [c] + after, wanted)
  {
    hide WellBracketed, FindAll, Unwanted;
    CharFirst(c, s);
    CharFirst(c, after);
  }

  // ----- spans inside a line --------------------------------------------------------

  /** The text segments of a line joined: the line without its code spans. */
  function Prose(segments: seq<string>): string
    requires |segments| % 2 == 1
  {
    if |segments| == 1 then segments[0] else segments[0] + Prose(segments[2..])
  }

  lemma RemoveSpansKeeps(s: string)
    requires s != "" && (s[0] != '`' || CloseTick(s[1..]).None?)
    ensures RemoveSpans(s) == [s[0]] + RemoveSpans(s[1..])
  {
  }

  lemma RemoveSpansDrops(s: string)
    requires s != "" && s[0] == '`' && CloseTick(s[1..]).Some?
    ensures RemoveSpans(s) == RemoveSpans(s[CloseTick(s[1..]).value + 2..])
  {
  }

  lemma {:induction false} RemoveSpansSkips(a: string, rest: string)
    requires '`' !in a
    ensures RemoveSpans(a + rest) == a + RemoveSpans(rest)
  {
    hide *;
    if a == "" {
      assert a + rest == rest;
    } else {
      assert (a + rest)[0] == a[0] && (a + rest)[1..] == a[1..] + rest;
      RemoveSpansKeeps(a + rest);
      RemoveSpansSkips(a[1..], rest);
      assert [a[0]] + (a[1..] + RemoveSpans(rest)) == a + RemoveSpans(rest);
    }
  }

  lemma {:induction false} CloseTickAt(inner: string, rest: string)
    requires '`' !in inner && '\n' !in inner
    ensures CloseTick(inner + "`" + rest) == Some(|inner|)
  {
    if inner == "" {
      assert inner + "`" + rest == "`" + rest;
    } else {
      assert (inner + "`" + rest)[1..] == inner[1..] + "`" + rest;
      CloseTickAt(inner[1..], rest);
    }
  }

  /** A span is removed wherever it stands after text without backticks. */
  lemma RemoveSpansCuts(a: string, inner: string, rest: string)
    requires '`' !in a && '`' !in inner && '\n' !in inner
    ensures RemoveSpans(a + (("`" + inner + "`") + rest)) == a + RemoveSpans(rest)
  {
    var s := ("`" + inner + "`") + rest;
    assert s[0] == '`' && s[1..] == inner + "`" + rest;
    CloseTickAt(inner, rest);
    assert s[|inner| + 2..] == rest;
    RemoveSpansSkips(a, s);
  }

  lemma {:induction false} FewTicksNoSpans(s: string)
    requires Count(s, '`') <= 1
    ensures RemoveSpans(s) == s
  {
    if s == "" {
    } else {
      FewTicksNoSpans(s[1..]);
      CountZero(s[1..], '`');
    }
  }

  /** A line that is not cut has at most one backtick. */
  lemma {:induction false} UncutHasFewTicks(line: string)
    requires '\n' !in line && |SplitSpans(line)| == 1
    ensures SplitSpans(line) == [line] && Count(line, '`') <= 1
  {
    var p := FirstTick(line);
    CountZero(line[..p], '`');
    if p == |line| {
      assert line[..p] == line;
    } else {
      var tail := line[p + 1..];
      assert line == line[..p] + (['`'] + tail);
      CountConcat(line[..p], ['`'] + tail, '`');
      CountConcat(['`'], tail, '`');
      NoCloseNoTick(tail);
    }
  }

  lemma {:induction false} NoCloseNoTick(s: string)
    requires CloseTick(s).None? && '\n' !in s
    ensures Count(s, '`') == 0
  {
    if s == "" {
    } else {
      NoCloseNoTick(s[1..]);
    }
  }

  lemma SplitSpansCuts(line: string)
    requires |SplitSpans(line)| > 1
    ensures FirstSpan(line).Some?
    ensures var s := FirstSpan(line).value;
      SplitSpans(line) == [line[..s.start], line[s.start..s.end]] + SplitSpans(line[s.end..])
  {
    hide FirstSpan;
  }

  lemma SpanTicks(line: string)
    requires FirstSpan(line).Some?
    ensures var p, k := FirstSpan(line).value.start, FirstSpan(line).value.end - FirstSpan(line).value.start - 2;
      p == FirstTick(line) < |line| && CloseTick(line[p + 1..]) == Some(k)
  {
    hide FirstTick, CloseTick;
  }

  /** How `SplitSpans` cuts off the first text and span. */
  lemma FirstCut(line: string) returns (a: string, inner: string, rest: string)
    requires '\n' !in line && |SplitSpans(line)| > 1
    ensures '`' !in a && '`' !in inner && '\n' !in inner && '\n' !in rest && '\n' !in a && |rest| < |line|
    ensures line == a + (("`" + inner + "`") + rest)
    ensures SplitSpans(line) == [a, "`" + inner + "`"] + SplitSpans(rest)
  {
    hide *;
    SplitSpansCuts(line);
    SpanTicks(line);
    var p := FirstTick(line);
    var k := CloseTick(line[p + 1..]).value;
    a, inner, rest := line[..p], line[p + 1..][..k], line[p + k + 2..];
    CutOut(line, p, k);
  }

  /** A text, a span and the rest. */
  lemma CutOut(line: string, p: nat, k: nat)
    requires p + k + 2 <= |line| && line[p] == '`' && line[p + 1..][k] == '`'
    ensures line[p..p + k + 2] == "`" + line[p + 1..][..k] + "`"
    ensures line == line[..p] + (("`" + line[p + 1..][..k] + "`") + line[p + k + 2..])
  {
  }

  /** Rewriting a line touches no span: removing the spans afterwards gives the rewritten text. */
  lemma {:induction false} SpansSurvive(line: string, wanted: set<string>)
    requires '\n' !in line
    ensures RemoveSpans(line) == Prose(SplitSpans(line))
    ensures '\n' !in SubLine(line, wanted)
    ensures RemoveSpans(SubLine(line, wanted)) == SubProse(SplitSpans(line), wanted)
    decreases |line|
  {
    if |SplitSpans(line)| == 1 {
      UncutSurvives(line, wanted);
    } else {
      hide *;
      var a, inner, rest := FirstCut(line);
      SpansSurvive(rest, wanted);
      CutSurvives(line, a, inner, rest, wanted);
    }
  }

  lemma UncutSurvives(line: string, wanted: set<string>)
    requires '\n' !in line && |SplitSpans(line)| == 1
    ensures RemoveSpans(line) == Prose(SplitSpans(line))
    ensures '\n' !in SubLine(line, wanted)
    ensures RemoveSpans(SubLine(line, wanted)) == SubProse(SplitSpans(line), wanted)
  {
    hide SplitSpans, RemoveSpans, Sub, SubSegments;
    UncutHasFewTicks(line);
    SubShrinks(line, wanted, '`');
    SubAddsNothing(line, wanted, '\n');
    FewTicksNoSpans(line);
    FewTicksNoSpans(Sub(line, wanted));
    LineSegments(line, wanted);
    SubSegmentsStep(SplitSpans(line), wanted);
  }

  /** The first text and span, when the rest of the line survives. */
  lemma CutSurvives(line: string, a: string, inner: string, rest: string, wanted: set<string>)
    requires '`' !in a && '`' !in inner && '\n' !in inner && '\n' !in rest && '\n' !in a
    requires line == a + (("`" + inner + "`") + rest)
    requires SplitSpans(line) == [a, "`" + inner + "`"] + SplitSpans(rest)
    requires RemoveSpans(rest) == Prose(SplitSpans(rest))
    requires '\n' !in SubLine(rest, wanted)
    requires RemoveSpans(SubLine(rest, wanted)) == SubProse(SplitSpans(rest), wanted)
    ensures RemoveSpans(line) == Prose(SplitSpans(line))
    ensures '\n' !in SubLine(line, wanted)
    ensures RemoveSpans(SubLine(line, wanted)) == SubProse(SplitSpans(line), wanted)
  {
    hide SplitSpans, RemoveSpans, Sub, SubSegments, SubLine, SegmentTargets, SubTargets;
    var segments := SplitSpans(line);
    assert segments[2..] == SplitSpans(rest);
    SubAddsNothing(a, wanted, '`');
    SubAddsNothing(a, wanted, '\n');
    RemoveSpansCuts(a, inner, rest);
    RemoveSpansCuts(Sub(a, wanted), inner, SubLine(rest, wanted));
    LineSegments(line, wanted);
    LineSegments(rest, wanted);
    SubSegmentsStep(segments, wanted);
    assert SubLine(line, wanted) == Sub(a, wanted) + (("`" + inner + "`") + SubLine(rest, wanted));
  }

  /** The rewritten text segments joined. */
  function SubProse(segments: seq<string>, wanted: set<string>): string
    requires |segments| % 2 == 1
  {
    if |segments| == 1 then Sub(segments[0], wanted) else Sub(segments[0], wanted) + SubProse(segments[2..], wanted)
  }

  /** Every "[[" of the joined text segments starts a link that ends in the same segment. */
  predicate WellLinked(segments: seq<string>)
    requires |segments| % 2 == 1
  {
    && WellBracketed(segments[0])
    && (|segments| > 1 ==>
          WellLinked(segments[2..]) && !(EndsOpen(segments[0]) && StartsOpen(Prose(segments[2..]))))
  }

  lemma {:induction false} SubProseRemovesWanted(segments: seq<string>, wanted: set<string>)
    requires |segments| % 2 == 1 && WellLinked(segments)
    ensures WellBracketed(Prose(segments)) && WellBracketed(SubProse(segments, wanted))
    ensures FindAll(SubProse(segments, wanted)) == Unwanted(FindAll(Prose(segments)), wanted)
    ensures !StartsOpen(Prose(segments)) ==> !StartsOpen(SubProse(segments, wanted))
    decreases |segments|
  {
    hide FindAll, WellBracketed, Sub, Unwanted;
    SubRemovesWanted(segments[0], wanted);
    if |segments| > 1 {
      SubProseRemovesWanted(segments[2..], wanted);
      FindAllConcat(segments[0], Prose(segments[2..]));
      FindAllConcat(Sub(segments[0], wanted), SubProse(segments[2..], wanted));
      UnwantedConcat(FindAll(segments[0]), FindAll(Prose(segments[2..])), wanted);
    }
  }

  // ----- the whole body -------------------------------------------------------------

  /** Every "[[" outside code starts a link that ends in the same line and segment. */
  predicate LinksStayInside(fence: Option<char>, lines: seq<string>)
    decreases lines
  {
    lines == []
    || ((IsCode(fence, lines[0]) || WellLinked(SplitSpans(lines[0])))
        && LinksStayInside(NextFence(fence, lines[0]), lines[1..]))
  }

  /** No rewritten line becomes a fence marker. */
  predicate NoNewFence(fence: Option<char>, lines: seq<string>, wanted: set<string>)
    decreases lines
  {
    lines == []
    || ((IsCode(fence, lines[0]) || FenceChar(SubLine(lines[0], wanted)).None?)
        && NoNewFence(NextFence(fence, lines[0]), lines[1..], wanted))
  }

  predicate OneLineEach(lines: seq<string>) {
    forall i :: 0 <= i < |lines| ==> '\n' !in lines[i]
  }

  /** The prose of the lines: spans removed line by line. */
  function LineProse(lines: seq<string>): seq<string> { Map(RemoveSpans, lines) }

  lemma {:induction false} CloseTickStops(s: string, t: string)
    requires '\n' !in s
    ensures CloseTick(s + "\n" + t) == CloseTick(s)
  {
    if s == "" {
      assert s + "\n" + t == "\n" + t;
    } else {
      assert (s + "\n" + t)[1..] == s[1..] + "\n" + t;
      CloseTickStops(s[1..], t);
    }
  }

  lemma {:induction false} RemoveSpansLineByLine(s: string, t: string)
    requires '\n' !in s
    ensures RemoveSpans(s + "\n" + t) == RemoveSpans(s) + "\n" + RemoveSpans(t)
    decreases |s|
  {
    hide *;
    var all := s + "\n" + t;
    if s == "" {
      EmptyLineFirst(t);
    } else {
      assert all[0] == s[0] && all[1..] == s[1..] + "\n" + t;
      CloseTickStops(s[1..], t);
      if s[0] == '`' && CloseTick(s[1..]).Some? {
        var k := CloseTick(s[1..]).value;
        RemoveSpansDrops(s);
        RemoveSpansDrops(all);
        assert all[k + 2..] == s[k + 2..] + "\n" + t;
        RemoveSpansLineByLine(s[k + 2..], t);
      } else {
        RemoveSpansKeeps(s);
        RemoveSpansKeeps(all);
        RemoveSpansLineByLine(s[1..], t);
        assert [s[0]] + (RemoveSpans(s[1..]) + "\n" + RemoveSpans(t))
            == ([s[0]] + RemoveSpans(s[1..])) + "\n" + RemoveSpans(t);
      }
    }
  }

  lemma EmptyLineFirst(t: string)
    ensures RemoveSpans("" + "\n" + t) == RemoveSpans("") + "\n" + RemoveSpans(t)
  {
  }

  lemma {:induction false} RemoveSpansJoin(lines: seq<string>)
    requires OneLineEach(lines)
    ensures RemoveSpans(Join(lines, "\n")) == Join(LineProse(lines), "\n")
  {
    if |lines| > 1 {
      RemoveSpansJoin(lines[1..]);
      RemoveSpansLineByLine(lines[0], Join(lines[1..], "\n"));
      assert LineProse(lines)[1..] == LineProse(lines[1..]);
    }
  }

  /** The matches of well-bracketed lines, in order. */
  function FindInLines(lines: seq<string>): seq<Match> {
    if lines == [] then [] else FindAll(lines[0]) + FindInLines(lines[1..])
  }

  lemma {:induction false} FindAllJoin(lines: seq<string>)
    requires forall i :: 0 <= i < |lines| ==> WellBracketed(lines[i])
    ensures FindAll(Join(lines, "\n")) == FindInLines(lines) && WellBracketed(Join(lines, "\n"))
  {
    if |lines| == 1 {
      assert FindInLines(lines[1..]) == [];
    } else if |lines| > 1 {
      var rest := Join(lines[1..], "\n");
      FindAllJoin(lines[1..]);
      NoBracketsNoLinks("\n");
      FindAllConcat("\n", rest);
      FindAllConcat(lines[0], "\n" + rest);
      assert lines[0] + "\n" + rest == lines[0] + ("\n" + rest);
    }
  }

  /** A line's prose before and after rewriting. */
  lemma LineRemovesWanted(line: string, wanted: set<string>)
    requires '\n' !in line && WellLinked(SplitSpans(line))
    ensures '\n' !in SubLine(line, wanted)
    ensures WellBracketed(RemoveSpans(line)) && WellBracketed(RemoveSpans(SubLine(line, wanted)))
    ensures FindAll(RemoveSpans(SubLine(line, wanted))) == Unwanted(FindAll(RemoveSpans(line)), wanted)
  {
    SpansSurvive(line, wanted);
    SubProseRemovesWanted(SplitSpans(line), wanted);
  }

  predicate AllWellBracketed(lines: seq<string>) {
    forall i :: 0 <= i < |lines| ==> WellBracketed(lines[i])
  }

  /** The prose a scan sees, line by line. */
  function SeenProse(fence: Option<char>, lines: seq<string>): seq<string> {
    LineProse(BlankCode(fence, lines))
  }

  lemma {:induction false} LinesRemoveWanted(fence: Option<char>, lines: seq<string>, wanted: set<string>)
    requires OneLineEach(lines) && LinksStayInside(fence, lines) && NoNewFence(fence, lines, wanted)
    ensures OneLineEach(SubLines(fence, lines, wanted))
    ensures AllWellBracketed(SeenProse(fence, lines))
    ensures AllWellBracketed(SeenProse(fence, SubLines(fence, lines, wanted)))
    ensures FindInLines(SeenProse(fence, SubLines(fence, lines, wanted)))
         == Unwanted(FindInLines(SeenProse(fence, lines)), wanted)
    decreases lines
  {
    if lines == [] {
      return;
    }
    hide SubLine, RemoveSpans, SeenProse, WellBracketed, SubLines, IsCode, NextFence, FenceChar, FindInLines,
      Unwanted, AllWellBracketed;
    var line, rest, next := lines[0], lines[1..], NextFence(fence, lines[0]);
    var after := SubLines(fence, lines, wanted);
    LinesRemoveWanted(next, rest, wanted);
    SubLinesStep(fence, lines, wanted);
    assert after[1..] == SubLines(next, rest, wanted);
    if !IsCode(fence, line) {
      LineRemovesWanted(line, wanted);
    }
    RewriteKeepsCode(fence, line, after[0]);
    SeenProseCons(fence, lines);
    SeenProseCons(fence, after);
    NothingInNothing(wanted);
    hide LinksStayInside, NoNewFence;
    FirstLineRemoved(SeenProse(fence, lines), SeenProse(fence, after), wanted);
    assert after == [after[0]] + SubLines(next, rest, wanted);
  }

  lemma FirstLineRemoved(seen: seq<string>, after: seq<string>, wanted: set<string>)
    requires seen != [] && after != [] && WellBracketed(seen[0]) && WellBracketed(after[0])
    requires AllWellBracketed(seen[1..]) && AllWellBracketed(after[1..])
    requires FindAll(after[0]) == Unwanted(FindAll(seen[0]), wanted)
    requires FindInLines(after[1..]) == Unwanted(FindInLines(seen[1..]), wanted)
    ensures AllWellBracketed(seen) && AllWellBracketed(after)
    ensures FindInLines(after) == Unwanted(FindInLines(seen), wanted)
  {
    hide WellBracketed, FindAll;
    assert forall i :: 1 <= i < |seen| ==> seen[i] == seen[1..][i - 1];
    assert forall i :: 1 <= i < |after| ==> after[i] == after[1..][i - 1];
    UnwantedConcat(FindAll(seen[0]), FindInLines(seen[1..]), wanted);
    hide Unwanted;
  }

  lemma NothingInNothing(wanted: set<string>)
    ensures WellBracketed("") && FindAll("") == [] && Unwanted([], wanted) == []
  {
  }

  /** A rewritten line is code when it was, and leaves the same fence open. */
  lemma RewriteKeepsCode(fence: Option<char>, line: string, after: string)
    requires IsCode(fence, line) ==> after == line
    requires !IsCode(fence, line) ==> FenceChar(after).None?
    ensures NextFence(fence, after) == NextFence(fence, line) && IsCode(fence, after) == IsCode(fence, line)
  {
  }

  lemma SeenProseCons(fence: Option<char>, lines: seq<string>)
    requires lines != []
    ensures |SeenProse(fence, lines)| == |lines|
    ensures SeenProse(fence, lines)[0] == if IsCode(fence, lines[0]) then "" else RemoveSpans(lines[0])
    ensures SeenProse(fence, lines)[1..] == SeenProse(NextFence(fence, lines[0]), lines[1..])
  {
  }

  /** The links whose target is not wanted. */
  function LinksMinus(links: seq<Link>, wanted: set<string>): seq<Link> {
    if links == [] then []
    else if links[0].target in wanted then LinksMinus(links[1..], wanted)
    else [links[0]] + LinksMinus(links[1..], wanted)
  }

  lemma {:induction false} LinksOfUnwanted(ms: seq<Match>, wanted: set<string>)
    ensures LinksOf(Unwanted(ms, wanted)) == LinksMinus(LinksOf(ms), wanted)
  {
    if ms == [] {
    } else {
      hide TargetOf, AliasOf;
      LinksOfUnwanted(ms[1..], wanted);
      if TargetOf(ms[0]) !in wanted {
        assert ([ms[0]] + Unwanted(ms[1..], wanted))[1..] == Unwanted(ms[1..], wanted);
      }
      if TargetOf(ms[0]) != "" {
        assert ([ToLink(ms[0])] + LinksOf(ms[1..]))[1..] == LinksOf(ms[1..]);
      }
    }
  }

  lemma {:induction false} BlankCodeOneLineEach(fence: Option<char>, lines: seq<string>)
    requires OneLineEach(lines)
    ensures OneLineEach(BlankCode(fence, lines))
    decreases lines
  {
    if lines == [] {
    } else {
      BlankCodeOneLineEach(NextFence(fence, lines[0]), lines[1..]);
    }
  }

  /** Extraction scans the prose of the lines. */
  lemma ExtractProse(lines: seq<string>)
    requires |lines| > 0 && OneLineEach(lines)
    ensures ExtractedLinks(Join(lines, "\n")) == LinksOf(FindAll(Join(SeenProse(None, lines), "\n")))
  {
    SplitJoin(lines, '\n');
    BlankCodeOneLineEach(None, lines);
    RemoveSpansJoin(BlankCode(None, lines));
  }

  /** Extraction sees a body line by line when its links stay inside lines. */
  lemma ExtractLineByLine(lines: seq<string>)
    requires |lines| > 0 && OneLineEach(lines) && AllWellBracketed(SeenProse(None, lines))
    ensures ExtractedLinks(Join(lines, "\n")) == LinksOf(FindInLines(SeenProse(None, lines)))
  {
    ExtractProse(lines);
    FindAllJoin(SeenProse(None, lines));
  }

  /** Rewriting is exact: the links left are the original ones whose target was not wanted,
    * in order. The hypotheses are what the rewriter's segment-by-segment view cannot see. */
  lemma DowngradeIsExact(body: string, wanted: set<string>)
    requires LinksStayInside(None, Split(body, '\n')) && NoNewFence(None, Split(body, '\n'), wanted)
    ensures ExtractedLinks(Downgraded(body, wanted)) == LinksMinus(ExtractedLinks(body), wanted)
  {
    var lines := Split(body, '\n');
    JoinSplit(body, '\n');
    LinesRemoveWanted(None, lines, wanted);
    ExtractLineByLine(lines);
    ExtractLineByLine(SubLines(None, lines, wanted));
    LinksOfUnwanted(FindInLines(SeenProse(None, lines)), wanted);
  }

  lemma {:induction false} DanglingMinus(links: seq<Link>, wanted: set<string>, existing: set<string>,
                                         created: set<string>)
    requires TargetsOf(Dangling(links, existing, created)) <= wanted
    ensures Dangling(LinksMinus(links, wanted), existing, created) == []
  {
    if links == [] {
    } else {
      hide Resolves;
      var rest := Dangling(links[1..], existing, created);
      assert TargetsOf(rest) <= TargetsOf(Dangling(links, existing, created));
      DanglingMinus(links[1..], wanted, existing, created);
      if !Resolves(links[0], existing, created) {
        assert links[0] in Dangling(links, existing, created);
      }
      if links[0].target !in wanted {
        assert LinksMinus(links, wanted)[1..] == LinksMinus(links[1..], wanted);
      }
    }
  }

  /** After the downgrade of a note's dangling targets its link check is clean. */
  lemma DowngradeClearsDangling(body: string, existing: set<string>, created: set<string>)
    requires var wanted := TargetsOf(Dangling(ExtractedLinks(body), existing, created));
      LinksStayInside(None, Split(body, '\n')) && NoNewFence(None, Split(body, '\n'), wanted)
    ensures var wanted := TargetsOf(Dangling(ExtractedLinks(body), existing, created));
      Dangling(ExtractedLinks(Downgraded(body, wanted)), existing, created) == []
  {
    var wanted := TargetsOf(Dangling(ExtractedLinks(body), existing, created));
    DowngradeIsExact(body, wanted);
    DanglingMinus(ExtractedLinks(body), wanted, existing, created);
  }

  // ----- for every body -------------------------------------------------------------

  lemma {:induction false} SegmentsShrink(segments: seq<string>, wanted: set<string>)
    requires |segments| % 2 == 1
    ensures |SubSegments(segments, wanted)| + 4 * |SegmentTargets(segments, wanted)| <= |SubSegments(segments, {})|
    decreases |segments|
  {
    hide *;
    SubShrinks(segments[0], wanted, 'x');
    SubShrinks(segments[0], {}, 'x');
    SubSegmentsStep(segments, wanted);
    SubSegmentsStep(segments, {});
    if |segments| > 1 {
      SegmentsShrink(segments[2..], wanted);
    }
  }

  lemma {:induction false} NothingWantedInLine(line: string)
    ensures SubSegments(SplitSpans(line), {}) == line
    decreases |line|
  {
    hide *;
    var segments := SplitSpans(line);
    SubSegmentsStep(segments, {});
    SubShrinks(segments[0], {}, 'x');
    if |segments| > 1 {
      SplitSpansCuts(line);
      var cut := FirstSpan(line).value;
      var a, span, rest := line[..cut.start], line[cut.start..cut.end], line[cut.end..];
      NothingWantedInLine(rest);
      assert segments[2..] == SplitSpans(rest);
      assert line == a + span + rest;
    } else {
      WholeLine(line);
    }
  }

  lemma WholeLine(line: string)
    requires |SplitSpans(line)| == 1
    ensures SplitSpans(line) == [line]
  {
  }

  lemma {:induction false} LinesShrink(fence: Option<char>, lines: seq<string>, wanted: set<string>)
    ensures |Join(SubLines(fence, lines, wanted), "\n")| + 4 * |LinesTargets(fence, lines, wanted)|
         <= |Join(lines, "\n")|
    ensures SubLines(fence, lines, {}) == lines
    decreases lines
  {
    if lines == [] {
    } else {
      LinesShrink(NextFence(fence, lines[0]), lines[1..], wanted);
      SegmentsShrink(SplitSpans(lines[0]), wanted);
      NothingWantedInLine(lines[0]);
      hide SubLine, SplitSpans;
      assert SubLines(fence, lines, wanted)[1..] == SubLines(NextFence(fence, lines[0]), lines[1..], wanted);
    }
  }

  /** For every body: a downgrade keeps the number of lines, shortens the body by at least
    * four characters for each link it rewrites, and wanting nothing changes nothing. */
  lemma DowngradeShrinks(body: string, wanted: set<string>)
    ensures |SubLines(None, Split(body, '\n'), wanted)| == |Split(body, '\n')|
    ensures |Downgraded(body, wanted)| + 4 * |DowngradedTargets(body, wanted)| <= |body|
    ensures Downgraded(body, {}) == body
  {
    JoinSplit(body, '\n');
    LinesShrink(None, Split(body, '\n'), wanted);
  }

  // ----- a body of one line -----------------------------------------------------------

  lemma {:induction false} NoTickAhead(s: string)
    requires '`' !in s
    ensures FirstTick(s) == |s|
  {
  }

  /** One line without code spans is one segment. */
  lemma OneSegment(line: string, wanted: set<string>)
    requires '`' !in line
    ensures SubLine(line, wanted) == Sub(line, wanted) && RemoveSpans(line) == line
  {
    NoTickAhead(line);
    RemoveSpansSkips(line, "");
    assert line + "" == line && RemoveSpans("") == "";
    LineSegments(line, wanted);
    SubSegmentsStep([line], wanted);
  }

  /** A body of one line that is neither code nor cut by code. */
  lemma OneLineBody(body: string, wanted: set<string>)
    requires '\n' !in body && '`' !in body && FenceChar(body).None?
    ensures Downgraded(body, wanted) == Sub(body, wanted)
    ensures ExtractedLinks(body) == LinksOf(FindAll(body))
  {
    SplitFree(body, '\n');
    OneSegment(body, wanted);
    SubLinesStep(None, [body], wanted);
    assert [body][1..] == [];
    assert BlankCode(None, [body]) == [body];
    hide SubLine, RemoveSpans, Sub;
  }

  /** What a reader is left with: a link alone on a line becomes its alias, if it has one that
    * is not blank, and otherwise the note it points at, both stripped. */
  lemma LoneLinkDowngrades(target: string, alias: string, wanted: set<string>)
    requires target != "" && NoBrackets(target) && '|' !in target && '`' !in target && '\n' !in target
    requires NoBrackets(alias) && '`' !in alias && '\n' !in alias
    requires Strip(Split(target, '#')[0]) in wanted
    ensures Downgraded("[[" + target + "]]", wanted) == Strip(Split(target, '#')[0])
    ensures Downgraded("[[" + target + "|" + alias + "]]", wanted)
         == if Strip(alias) == "" then Strip(Split(target, '#')[0]) else Strip(alias)
  {
    LoneLink(Match(target, None), wanted);
    LoneLink(Match(target, Some(alias)), wanted);
    hide Split, Strip, Downgraded;
  }

  lemma LoneLink(m: Match, wanted: set<string>)
    requires Proper(m) && '`' !in Source(m) && '\n' !in Source(m) && TargetOf(m) in wanted
    ensures Downgraded(Source(m), wanted) == PlainText(m)
  {
    SourceMatches(m, "");
    assert Source(m) + "" == Source(m);
    OpensNoFence(m);
    hide *;
    OneLineBody(Source(m), wanted);
    LoneSub(m, wanted);
  }

  lemma OpensNoFence(m: Match)
    ensures FenceChar(Source(m)).None?
  {
  }

  lemma LoneSub(m: Match, wanted: set<string>)
    requires MatchLink(Source(m)) == Some(m) && Beyond(Source(m), m) == "" && TargetOf(m) in wanted
    ensures Sub(Source(m), wanted) == PlainText(m)
  {
    hide MatchLink, TargetOf, PlainText, Beyond;
    assert Sub("", wanted) == "";
  }
}
