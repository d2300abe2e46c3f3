/** Wikilinks: extraction, resolution, and the last-resort downgrade to plain text. */
module Links {
  import opened Prelude
  import opened Text

  datatype Link = Link(target: string, display: Option<string>)

  // ----- code -----------------------------------------------------------------------

  function SkipBlanks(line: string): string {
    if line != "" && (line[0] == ' ' || line[0] == '\t') then SkipBlanks(line[1..]) else line
  }

  /** The character of a fence marker, if the line starts with one. */
  function FenceChar(line: string): Option<char> {
    var t := SkipBlanks(line);
    if |t| >= 3 && (t[0] == '`' || t[0] == '~') && t[1] == t[0] && t[2] == t[0] then Some(t[0]) else None
  }

  /** The open fence after a line, given the one open before it. */
  function NextFence(fence: Option<char>, line: string): Option<char> {
    if fence.None? then FenceChar(line)
    else if FenceChar(line) == fence then None
    else fence
  }

  /** Fence lines and everything between them. */
  predicate IsCode(fence: Option<char>, line: string) {
    fence.Some? || FenceChar(line).Some?
  }

  lemma FenceCases(fence: Option<char>, line: string)
    ensures IsCode(fence, line) <==> fence.Some? || FenceChar(line).Some?
    ensures NextFence(fence, line)
         == if fence.None? then FenceChar(line) else if FenceChar(line) == fence then None else fence
  {
  }

  /** Which lines are code. */
  function CodeLines(fence: Option<char>, lines: seq<string>): (r: seq<bool>)
    ensures |r| == |lines|
    decreases lines
  {
    if lines == [] then [] else [IsCode(fence, lines[0])] + CodeLines(NextFence(fence, lines[0]), lines[1..])
  }

  /** Where a code span that was opened just before `s` closes: at the first backtick of the line. */
  function CloseTick(s: string): (r: Option<nat>)
    ensures r.Some? ==> r.value < |s| && s[r.value] == '`' && '`' !in s[..r.value] && '\n' !in s[..r.value]
  {
    if s == "" || s[0] == '\n' then None
    else if s[0] == '`' then Some(0)
    else match CloseTick(s[1..])
      case None => None
      case Some(k) => Some(k + 1)
  }

  /** `s` without its inline code spans. */
  function RemoveSpans(s: string): string {
    if s == "" then ""
    else if s[0] == '`' && CloseTick(s[1..]).Some? then RemoveSpans(s[CloseTick(s[1..]).value + 2..])
    else [s[0]] + RemoveSpans(s[1..])
  }

  /** The lines with the code ones blanked. */
  function BlankCode(fence: Option<char>, lines: seq<string>): (r: seq<string>)
    ensures |r| == |lines|
    decreases lines
  {
    if lines == [] then []
    else [if IsCode(fence, lines[0]) then "" else lines[0]] + BlankCode(NextFence(fence, lines[0]), lines[1..])
  }

  function StripCode(text: string): string {
    RemoveSpans(Join(BlankCode(None, Split(text, '\n')), "\n"))
  }

  // ----- matching -------------------------------------------------------------------

  /** A match of the wikilink pattern: `[[target]]` or `[[target|alias]]`. */
  datatype Match = Match(target: string, alias: Option<string>)

  /** The matched text. */
  function Source(m: Match): (s: string)
    ensures |s| >= 4
  {
    match m.alias
    case None => "[[" + m.target + "]]"
    case Some(alias) => "[[" + m.target + "|" + alias + "]]"
  }

  predicate NoBrackets(s: string) { '[' !in s && ']' !in s }

  /** What the pattern's character classes admit. */
  predicate Proper(m: Match) {
    && m.target != "" && NoBrackets(m.target) && '|' !in m.target
    && (m.alias.Some? ==> NoBrackets(m.alias.value))
  }

  function TargetLen(s: string): (k: nat)
    ensures k <= |s| && NoBrackets(s[..k]) && '|' !in s[..k]
    ensures k < |s| ==> s[k] == '[' || s[k] == ']' || s[k] == '|'
  {
    if s == "" || s[0] == '[' || s[0] == ']' || s[0] == '|' then 0 else 1 + TargetLen(s[1..])
  }

  function AliasLen(s: string): (k: nat)
    ensures k <= |s| && NoBrackets(s[..k])
    ensures k < |s| ==> s[k] == '[' || s[k] == ']'
  {
    if s == "" || s[0] == '[' || s[0] == ']' then 0 else 1 + AliasLen(s[1..])
  }

  /** The match at the start of `s`. The pattern's classes exclude the delimiters that
    * follow them, so there is at most one way to match. */
  function MatchLink(s: string): Option<Match> {
    if !StartsWith(s, "[[") then None
    else
      var k := TargetLen(s[2..]);
      var target, rest := s[2..][..k], s[2..][k..];
      if k == 0 then None
      else if StartsWith(rest, "]]") then Some(Match(target, None))
      else if !StartsWith(rest, "|") then None
      else
        var a := AliasLen(rest[1..]);
        if StartsWith(rest[1..][a..], "]]") then Some(Match(target, Some(rest[1..][..a]))) else None
  }

  lemma PrefixSplits(s: string, prefix: string)
    requires StartsWith(s, prefix)
    ensures s == prefix + s[|prefix|..]
  {
  }

  lemma BareIsPrefix(s: string)
    requires MatchLink(s).Some? && MatchLink(s).value.alias.None?
    ensures Proper(MatchLink(s).value)
    ensures s == "[[" + (MatchLink(s).value.target + ("]]" + s[|MatchLink(s).value.target| + 4..]))
  {
  }

  lemma AliasedParts(s: string) returns (target: string, alias: string, rest: string, tail: string)
    requires MatchLink(s).Some? && MatchLink(s).value.alias.Some?
    ensures MatchLink(s) == Some(Match(target, Some(alias))) && Proper(Match(target, Some(alias)))
    ensures StartsWith(s, "[[") && s[2..] == target + rest
    ensures StartsWith(rest, "|") && rest[1..] == alias + tail && StartsWith(tail, "]]")
  {
    var k := TargetLen(s[2..]);
    target, rest := s[2..][..k], s[2..][k..];
    var a := AliasLen(rest[1..]);
    alias, tail := rest[1..][..a], rest[1..][a..];
  }

  lemma AliasedIsPrefix(s: string)
    requires MatchLink(s).Some? && MatchLink(s).value.alias.Some?
    ensures Proper(MatchLink(s).value)
    ensures var m := MatchLink(s).value; var n := |m.target| + |m.alias.value| + 5;
      n <= |s| && s == "[[" + (m.target + ("|" + (m.alias.value + ("]]" + s[n..]))))
  {
    var target, alias, rest, tail := AliasedParts(s);
    PrefixSplits(s, "[[");
    PrefixSplits(rest, "|");
    PrefixSplits(tail, "]]");
    hide *;
    AliasedSource(s, target, alias, tail[2..]);
    var n := |target| + |alias| + 5;
    assert s[n..] == tail[2..];
  }

  /** A match is of the text at the start. */
  lemma MatchIsPrefix(s: string)
    requires MatchLink(s).Some?
    ensures Proper(MatchLink(s).value)
    ensures s == Source(MatchLink(s).value) + s[|Source(MatchLink(s).value)|..]
  {
    hide *;
    var m := MatchLink(s).value;
    if m.alias.None? {
      BareIsPrefix(s);
      assert m == Match(m.target, None);
      BareSource(s, m.target, s[|m.target| + 4..]);
    } else {
      AliasedIsPrefix(s);
      assert m == Match(m.target, Some(m.alias.value));
      AliasedSource(s, m.target, m.alias.value, s[|m.target| + |m.alias.value| + 5..]);
    }
  }

  lemma BareSource(s: string, target: string, tail: string)
    requires s == "[[" + (target + ("]]" + tail))
    ensures var m := Match(target, None); s == Source(m) + tail && s[|Source(m)|..] == tail
  {
  }

  lemma AliasedSource(s: string, target: string, alias: string, tail: string)
    requires s == "[[" + (target + ("|" + (alias + ("]]" + tail))))
    ensures var m := Match(target, Some(alias)); s == Source(m) + tail && s[|Source(m)|..] == tail
  {
    var end := alias + ("]]" + tail);
    assert end == (alias + "]]") + tail;
    var mid := target + ("|" + end);
    assert mid == (target + "|" + alias + "]]") + tail;
    assert Source(Match(target, Some(alias))) == "[[" + (target + "|" + alias + "]]");
    assert s == ("[[" + (target + "|" + alias + "]]")) + tail;
  }

  /** All matches, left to right, none overlapping. */
  function FindAll(s: string): seq<Match> {
    if s == "" then []
    else match MatchLink(s)
      case Some(m) => [m] + FindAll(Beyond(s, m))
      case None => FindAll(s[1..])
  }

  /** The rest of a string after a match at its start. */
  function Beyond(s: string, m: Match): (r: string)
    requires MatchLink(s) == Some(m)
    ensures s == Source(m) + r && |r| < |s|
  {
    MatchIsPrefix(s);
    s[|Source(m)|..]
  }

  /** The note a match points at: the target without its heading anchor. */
  function TargetOf(m: Match): string {
    Strip(Split(m.target, '#')[0])
  }

  function AliasOf(m: Match): string {
    if m.alias.None? then "" else Strip(m.alias.value)
  }

  function ToLink(m: Match): Link {
    Link(TargetOf(m), if AliasOf(m) == "" then None else Some(AliasOf(m)))
  }

  function LinksOf(ms: seq<Match>): seq<Link> {
    if ms == [] then []
    else if TargetOf(ms[0]) == "" then LinksOf(ms[1..])
    else [ToLink(ms[0])] + LinksOf(ms[1..])
  }

  /** Every wikilink outside code. */
  function ExtractedLinks(body: string): seq<Link> {
    LinksOf(FindAll(StripCode(body)))
  }

  // ----- downgrading ----------------------------------------------------------------

  /** What a downgraded link leaves: its alias, or its target. */
  function PlainText(m: Match): string {
    if AliasOf(m) == "" then TargetOf(m) else AliasOf(m)
  }

  /** A segment with the wanted links rewritten. */
  function Sub(s: string, wanted: set<string>): string {
    if s == "" then ""
    else match MatchLink(s)
      case Some(m) => (if TargetOf(m) in wanted then PlainText(m) else Source(m)) + Sub(Beyond(s, m), wanted)
      case None => [s[0]] + Sub(s[1..], wanted)
  }

  /** The targets rewritten in a segment, in order. */
  function SubTargets(s: string, wanted: set<string>): seq<string> {
    if s == "" then []
    else match MatchLink(s)
      case Some(m) =>
        var rest := SubTargets(Beyond(s, m), wanted);
        if TargetOf(m) in wanted then [TargetOf(m)] + rest else rest
      case None => SubTargets(s[1..], wanted)
  }

  /** Where the first backtick is, or the length. */
  function FirstTick(s: string): (p: nat)
    ensures p <= |s| && '`' !in s[..p]
    ensures p < |s| ==> s[p] == '`'
  {
    if s == "" || s[0] == '`' then 0 else 1 + FirstTick(s[1..])
  }

  datatype Span = Span(start: nat, end: nat)

  /** The first code span of a line. */
  function FirstSpan(line: string): (r: Option<Span>)
    ensures r.Some? ==> r.value.start + 2 <= r.value.end <= |line|
  {
    var p := FirstTick(line);
    if p == |line| then None
    else match CloseTick(line[p + 1..])
      case None => None
      case Some(k) => Some(Span(p, p + k + 2))
  }

  /** A line as text, span, text, ..., text: the code spans are at the odd indices. */
  function SplitSpans(line: string): (r: seq<string>)
    ensures |r| % 2 == 1
    decreases |line|
  {
    match FirstSpan(line)
    case None => [line]
    case Some(s) => [line[..s.start], line[s.start..s.end]] + SplitSpans(line[s.end..])
  }

  /** The text segments rewritten, the spans verbatim. */
  function SubSegments(segments: seq<string>, wanted: set<string>): string
    requires |segments| % 2 == 1
  {
    if |segments| == 1 then Sub(segments[0], wanted)
    else Sub(segments[0], wanted) + segments[1] + SubSegments(segments[2..], wanted)
  }

  function SegmentTargets(segments: seq<string>, wanted: set<string>): seq<string>
    requires |segments| % 2 == 1
  {
    if |segments| == 1 then SubTargets(segments[0], wanted)
    else SubTargets(segments[0], wanted) + SegmentTargets(segments[2..], wanted)
  }

  lemma SubSegmentsStep(segments: seq<string>, wanted: set<string>)
    requires |segments| % 2 == 1
    ensures SubSegments(segments, wanted) ==
      if |segments| == 1 then Sub(segments[0], wanted)
      else Sub(segments[0], wanted) + segments[1] + SubSegments(segments[2..], wanted)
    ensures SegmentTargets(segments, wanted) ==
      if |segments| == 1 then SubTargets(segments[0], wanted)
      else SubTargets(segments[0], wanted) + SegmentTargets(segments[2..], wanted)
  {
  }

  function SubLine(line: string, wanted: set<string>): string {
    SubSegments(SplitSpans(line), wanted)
  }

  function LineTargets(line: string, wanted: set<string>): seq<string> {
    SegmentTargets(SplitSpans(line), wanted)
  }

  lemma LineSegments(line: string, wanted: set<string>)
    ensures SubLine(line, wanted) == SubSegments(SplitSpans(line), wanted)
    ensures LineTargets(line, wanted) == SegmentTargets(SplitSpans(line), wanted)
  {
  }

  /** The lines with the links of the non-code ones rewritten. */
  function SubLines(fence: Option<char>, lines: seq<string>, wanted: set<string>): (r: seq<string>)
    ensures |r| == |lines|
    decreases lines
  {
    if lines == [] then []
    else
      var line := if IsCode(fence, lines[0]) then lines[0] else SubLine(lines[0], wanted);
      [line] + SubLines(NextFence(fence, lines[0]), lines[1..], wanted)
  }

  /** The first line of a rewrite. */
  lemma SubLinesStep(fence: Option<char>, lines: seq<string>, wanted: set<string>)
    requires lines != []
    ensures var next := NextFence(fence, lines[0]);
      SubLines(fence, lines, wanted)
        == [if IsCode(fence, lines[0]) then lines[0] else SubLine(lines[0], wanted)]
           + SubLines(next, lines[1..], wanted)
    ensures IsCode(fence, lines[0]) ==>
      LinesTargets(fence, lines, wanted) == LinesTargets(NextFence(fence, lines[0]), lines[1..], wanted)
    ensures !IsCode(fence, lines[0]) ==>
      LinesTargets(fence, lines, wanted)
        == LineTargets(lines[0], wanted) + LinesTargets(NextFence(fence, lines[0]), lines[1..], wanted)
  {
  }

  function LinesTargets(fence: Option<char>, lines: seq<string>, wanted: set<string>): seq<string>
    decreases lines
  {
    if lines == [] then []
    else
      var rest := LinesTargets(NextFence(fence, lines[0]), lines[1..], wanted);
      if IsCode(fence, lines[0]) then rest else LineTargets(lines[0], wanted) + rest
  }

  function Downgraded(body: string, wanted: set<string>): string {
    Join(SubLines(None, Split(body, '\n'), wanted), "\n")
  }

  /** Every link occurrence that a downgrade rewrites, in order. */
  function DowngradedTargets(body: string, wanted: set<string>): seq<string> {
    LinesTargets(None, Split(body, '\n'), wanted)
  }

  // ----- resolving ------------------------------------------------------------------

  function Stem(path: string): string {
    if EndsWith(path, ".md") then path[..|path| - 3] else path
  }

  /** The part after the last slash. */
  function BaseName(s: string): string { Last(Split(s, '/')) }

  /** Everything a link may say to reach one of the notes. */
  function LinkKeys(paths: set<string>): set<string> {
    (set p | p in paths :: Stem(p)) + (set p | p in paths :: BaseName(Stem(p)))
  }

  predicate Resolves(link: Link, existing: set<string>, created: set<string>) {
    link.target in LinkKeys(existing) || link.target in LinkKeys(created)
  }

  function Dangling(links: seq<Link>, existing: set<string>, created: set<string>): seq<Link> {
    if links == [] then []
    else if Resolves(links[0], existing, created) then Dangling(links[1..], existing, created)
    else [links[0]] + Dangling(links[1..], existing, created)
  }

  function TargetsOf(links: seq<Link>): set<string> {
    set l | l in links :: l.target
  }
}
