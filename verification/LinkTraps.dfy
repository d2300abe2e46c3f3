/** Why the downgrade needs the validator after it: where rewriting leaves a link, or hides one. */
module LinkTraps {
  import opened Prelude
  import opened Text
  import opened Links
  import opened LinkTheorems

  /** A target as a note is usually called. */
  predicate PlainTarget(t: string) {
    t != "" && NoBrackets(t) && '|' !in t && '#' !in t && '`' !in t && '\n' !in t && Strip(t) == t
  }

  lemma PlainLink(t: string)
    requires PlainTarget(t)
    ensures Proper(Match(t, None)) && TargetOf(Match(t, None)) == t && PlainText(Match(t, None)) == t
    ensures LinksOf([Match(t, None)]) == [Link(t, None)]
  {
    SplitFree(t, '#');
    hide Strip, Split;
  }

  function Bare(t: string): string { Source(Match(t, None)) }

  lemma NoMatchInBrackets(s: string)
    requires |s| > 2 && s[2] == '['
    ensures MatchLink(s).None?
  {
  }

  lemma ScanLink(m: Match, rest: string, wanted: set<string>)
    requires Proper(m) && TargetOf(m) in wanted
    ensures Sub(Source(m) + rest, wanted) == PlainText(m) + Sub(rest, wanted)
    ensures FindAll(Source(m) + rest) == [m] + FindAll(rest)
  {
    SourceMatches(m, rest);
    hide MatchLink, Proper, TargetOf, PlainText, Source;
  }

  lemma ScanNested(t: string)
    requires PlainTarget(t)
    ensures var body := "[[" + (Bare(t) + "]]");
      Sub(body, {t}) == Bare(t) && FindAll(body) == [Match(t, None)]
  {
    var body := "[[" + (Bare(t) + "]]");
    assert body[1..] == "[" + (Bare(t) + "]]") && body[2] == '[' && body[1..][2] == '[';
    assert body[1..][1..] == Bare(t) + "]]";
    assert "[" + ("[" + (t + "]]")) == Bare(t);
    hide *;
    PlainLink(t);
    BareIs(t);
    TailIsKept(t);
    ScanLink(Match(t, None), "]]", {t});
    NoMatchInBrackets(body);
    NoMatchInBrackets(body[1..]);
    ScanPast(body, {t});
    ScanPast(body[1..], {t});
  }

  lemma TailIsKept(t: string)
    ensures Sub("]]", {t}) == "]]" && FindAll("]]") == []
  {
    NoBracketNoMatch("]]");
    NoBracketNoMatch("]");
    assert "]]"[1..] == "]" && "]"[1..] == "";
    assert Sub("", {t}) == "" && FindAll("") == [];
    assert Sub("]", {t}) == "]";
  }

  /** A link inside another pair of brackets is uncovered by its own downgrade: the body has
    * exactly the links it had, so only validating again can reject it. */
  lemma NestedLinkSurvivesDowngrade(t: string)
    requires PlainTarget(t)
    ensures var body := "[[" + (Bare(t) + "]]");
      ExtractedLinks(body) == [Link(t, None)] && ExtractedLinks(Downgraded(body, {t})) == [Link(t, None)]
  {
    hide *;
    var body := "[[" + (Bare(t) + "]]");
    ScanNested(t);
    PlainLink(t);
    BareIs(t);
    LinkAlone(Match(t, None));
    BareIsPlain(t);
    NestedIsPlain(t);
    OneLineBody(body, {t});
    OneLineBody(Bare(t), {});
  }

  lemma NestedIsPlain(t: string)
    requires PlainTarget(t)
    ensures var body := "[[" + (Bare(t) + "]]"); '\n' !in body && '`' !in body && FenceChar(body).None?
  {
    BareIsPlain(t);
  }

  lemma SubKeepsUnwanted(t: string, wanted: set<string>)
    requires PlainTarget(t)
    ensures Sub(Bare(t), wanted) == if t in wanted then t else Bare(t)
  {
    PlainLink(t);
    SourceMatches(Match(t, None), "");
    assert Bare(t) + "" == Bare(t) && Sub("", wanted) == "";
    hide MatchLink, PlainText, TargetOf;
  }

  lemma BareIsPlain(t: string)
    requires PlainTarget(t)
    ensures '\n' !in Bare(t) && '`' !in Bare(t) && FenceChar(Bare(t)).None?
  {
  }

  lemma TwoLinesNoCode(a: string, b: string)
    requires PlainTarget(a) && PlainTarget(b)
    ensures var body := Bare(a) + "\n" + Bare(b);
      Split(body, '\n') == [Bare(a), Bare(b)] && StripCode(body) == body
  {
    var body := Bare(a) + "\n" + Bare(b);
    BareIsPlain(a);
    BareIsPlain(b);
    hide Bare, FenceChar, PlainTarget;
    SplitAppend(Bare(a), '\n', Bare(b));
    SplitFree(Bare(b), '\n');
    assert BlankCode(None, [Bare(b)]) == [Bare(b)];
    assert [Bare(a), Bare(b)][1..] == [Bare(b)];
    assert BlankCode(None, [Bare(a), Bare(b)]) == [Bare(a)] + BlankCode(None, [Bare(b)]);
    assert [Bare(a)] + [Bare(b)] == [Bare(a), Bare(b)];
    assert Join([Bare(a), Bare(b)], "\n") == body;
    RemoveSpansSkips(body, "");
    assert body + "" == body && RemoveSpans("") == "";
  }

  lemma TwoLinesFound(a: string, b: string)
    requires PlainTarget(a) && PlainTarget(b)
    ensures FindAll(Bare(a) + "\n" + Bare(b)) == [Match(a, None), Match(b, None)]
  {
    hide *;
    PlainLink(a);
    PlainLink(b);
    BareIs(a);
    BareIs(b);
    LinkAlone(Match(a, None));
    LinkAlone(Match(b, None));
    LineBreak();
    FindAllConcat("\n", Bare(b));
    FindAllConcat(Bare(a), "\n" + Bare(b));
    assert Bare(a) + ("\n" + Bare(b)) == Bare(a) + "\n" + Bare(b);
  }

  lemma BareIs(t: string)
    ensures Bare(t) == Source(Match(t, None))
  {
  }

  lemma LineBreak()
    ensures WellBracketed("\n") && FindAll("\n") == [] && !EndsOpen("\n")
  {
  }

  /** The links of two lines without code are those of each. */
  lemma TwoLines(a: string, b: string)
    requires PlainTarget(a) && PlainTarget(b)
    ensures Split(Bare(a) + "\n" + Bare(b), '\n') == [Bare(a), Bare(b)]
    ensures ExtractedLinks(Bare(a) + "\n" + Bare(b)) == [Link(a, None), Link(b, None)]
  {
    hide Bare, PlainTarget, Split, StripCode, FindAll, TargetOf, ToLink, Proper, PlainText;
    TwoLinesNoCode(a, b);
    TwoLinesFound(a, b);
    PlainLink(a);
    PlainLink(b);
    LinkOf(a);
    LinkOf(b);
    assert [Match(a, None), Match(b, None)][1..] == [Match(b, None)];
  }

  lemma LinkOf(t: string)
    requires PlainTarget(t)
    ensures ToLink(Match(t, None)) == Link(t, None)
  {
    PlainLink(t);
  }

  /** A link whose target is a fence marker becomes one, and hides the links below it that
    * nobody wanted to downgrade. */
  lemma RewriteOpensAFence(t: string)
    requires PlainTarget(t) && t != "~~~"
    ensures var body := Bare("~~~") + "\n" + Bare(t);
      && ExtractedLinks(body) == [Link("~~~", None), Link(t, None)]
      && ExtractedLinks(Downgraded(body, {"~~~"})) == []
  {
    var wanted := {"~~~"};
    StripKeeps("~~~");
    TwoLines("~~~", t);
    RewriteOf(t, wanted);
    FencedLines(t);
    hide ExtractedLinks, Strip, Bare, PlainTarget;
  }

  lemma RewriteOf(t: string, wanted: set<string>)
    requires PlainTarget(t) && PlainTarget("~~~") && t !in wanted && "~~~" in wanted
    ensures Downgraded(Bare("~~~") + "\n" + Bare(t), wanted) == Join(["~~~", Bare(t)], "\n")
  {
    TwoLinesNoCode("~~~", t);
    BareIsPlain("~~~");
    BareIsPlain(t);
    OneSegment(Bare("~~~"), wanted);
    OneSegment(Bare(t), wanted);
    SubKeepsUnwanted("~~~", wanted);
    SubKeepsUnwanted(t, wanted);
    var lines := [Bare("~~~"), Bare(t)];
    SubLinesStep(None, lines, wanted);
    SubLinesStep(None, [Bare(t)], wanted);
    hide Bare, PlainTarget, SubLine, Sub, FenceChar, Split, StripCode, RemoveSpans;
    assert lines[1..] == [Bare(t)] && [Bare(t)][1..] == [];
    assert SubLines(None, lines, wanted) == ["~~~", Bare(t)];
  }

  lemma FencedLines(t: string)
    requires PlainTarget(t)
    ensures ExtractedLinks(Join(["~~~", Bare(t)], "\n")) == []
  {
    BareIsPlain(t);
    SplitJoin(["~~~", Bare(t)], '\n');
    assert FenceChar("~~~") == Some('~');
    assert BlankCode(None, ["~~~", Bare(t)]) == ["", ""];
    assert Join(["", ""], "\n") == "\n";
    RemoveSpansSkips("\n", "");
    assert "\n" + "" == "\n" && RemoveSpans("") == "";
    NoBracketsNoLinks("\n");
    hide FindAll, RemoveSpans;
  }
}
