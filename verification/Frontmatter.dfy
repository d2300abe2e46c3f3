/** Rendering a note to frontmatter + body, and parsing it back.
  *
  * YAML is modelled on the five-key fragment that rendering emits. Tags and hashes are
  * plain scalars, so whether they read back as strings depends on YAML's implicit types,
  * which are written out below. A title is quoted by the YAML library; that codec is a
  * parameter, with the law a caller needs stated where it is needed. */
module Frontmatter {
  import opened Prelude
  import opened Text

  datatype Date = Date(year: nat, month: nat, day: nat)

  datatype NoteFrontmatter = NoteFrontmatter(
    title: string, tags: seq<string>, sources: seq<string>, created: Date, updated: Date)

  datatype Note = Note(path: string, frontmatter: NoteFrontmatter, body: string)

  datatype Parsed = Parsed(frontmatter: NoteFrontmatter, body: string)

  /** How the YAML library prints and reads the title scalar. */
  datatype TitleCodec = TitleCodec(dump: string -> string, load: string -> Option<string>)

  const DELIM := "---"

  // ----- dates ----------------------------------------------------------------------

  function DaysIn(year: nat, month: nat): nat {
    if month in {4, 6, 9, 11} then 30
    else if month != 2 then 31
    else if year % 4 == 0 && (year % 100 != 0 || year % 400 == 0) then 29
    else 28
  }

  predicate ValidDate(d: Date) {
    1 <= d.year <= 9999 && 1 <= d.month <= 12 && 1 <= d.day <= DaysIn(d.year, d.month)
  }

  function Digit(n: nat): (c: char)
    requires n < 10
    ensures IsDigit(c) && DigitValue(c) == n
  {
    "0123456789"[n]
  }

  function DigitValue(c: char): nat
    requires IsDigit(c)
  {
    c as nat - '0' as nat
  }

  /** ISO form, `YYYY-MM-DD`. */
  function DateText(d: Date): (s: string)
    requires ValidDate(d)
    ensures |s| == 10 && '\n' !in s
  {
    [Digit(d.year / 1000), Digit(d.year / 100 % 10), Digit(d.year / 10 % 10), Digit(d.year % 10), '-',
     Digit(d.month / 10), Digit(d.month % 10), '-', Digit(d.day / 10), Digit(d.day % 10)]
  }

  /** The shape of a YAML timestamp that has only a date. */
  predicate DateLike(s: string) {
    && |s| == 10 && s[4] == '-' && s[7] == '-'
    && forall i :: 0 <= i < 10 && i != 4 && i != 7 ==> IsDigit(s[i])
  }

  function DateOf(s: string): Date
    requires DateLike(s)
  {
    Date(1000 * DigitValue(s[0]) + 100 * DigitValue(s[1]) + 10 * DigitValue(s[2]) + DigitValue(s[3]),
         10 * DigitValue(s[5]) + DigitValue(s[6]), 10 * DigitValue(s[8]) + DigitValue(s[9]))
  }

  lemma YearDigits(y: nat)
    requires y <= 9999
    ensures 1000 * (y / 1000) + 100 * (y / 100 % 10) + 10 * (y / 10 % 10) + y % 10 == y
  {
    assert y / 100 == y / 10 / 10 && y / 1000 == y / 100 / 10;
  }

  lemma DateRoundTrip(d: Date)
    requires ValidDate(d)
    ensures DateLike(DateText(d)) && DateOf(DateText(d)) == d
  {
    YearDigits(d.year);
  }

  // ----- scalars --------------------------------------------------------------------

  predicate AllIn(s: string, p: char -> bool) {
    forall i :: 0 <= i < |s| ==> p(s[i])
  }

  /** The plain scalars over `[0-9a-z-]` that YAML 1.1 reads as an integer. */
  predicate IntLike(s: string) {
    || s == "0"
    || (s != "" && '1' <= s[0] <= '9' && AllIn(s, IsDigit))
    || (|s| >= 2 && s[0] == '0' && AllIn(s[1..], c => '0' <= c <= '7'))
    || (|s| >= 3 && s[..2] == "0b" && AllIn(s[2..], c => '0' <= c <= '1'))
    || (|s| >= 3 && s[..2] == "0x" && AllIn(s[2..], c => IsDigit(c) || 'a' <= c <= 'f'))
  }

  predicate WordLike(s: string) {
    s in ["true", "false", "yes", "no", "on", "off", "null"]
  }

  /** Whether a plain scalar over `[0-9a-z-]` reads back as the string it was. */
  predicate ReadsAsString(s: string) {
    !IntLike(s) && !WordLike(s) && !DateLike(s)
  }

  /** A plain scalar as the loader constructs it: an impossible date raises `ValueError`,
    * any other non-string fails the model's type check. */
  function LoadPlain(s: string): (r: Result<string, Exn>)
    ensures r.Ok? <==> ReadsAsString(s)
    ensures r.Ok? ==> r.value == s
  {
    if DateLike(s) && !ValidDate(DateOf(s)) then Err(Exn(Foreign, "day or month out of range"))
    else if ReadsAsString(s) then Ok(s)
    else Err(Exn(Terminal, "malformed frontmatter"))
  }

  function LoadAll(items: seq<string>): (r: Result<seq<string>, Exn>)
    ensures r.Ok? <==> forall i :: 0 <= i < |items| ==> ReadsAsString(items[i])
    ensures r.Ok? ==> r.value == items
  {
    if items == [] then Ok([])
    else
      var head :- LoadPlain(items[0]);
      var tail :- LoadAll(items[1..]);
      Ok([head] + tail)
  }

  predicate TagChar(c: char) { IsDigit(c) || IsLower(c) || c == '-' }

  /** Lowercase words separated by single hyphens. */
  predicate Normalized(tag: string) {
    && tag != "" && AllIn(tag, TagChar) && tag[0] != '-' && tag[|tag| - 1] != '-'
    && forall i :: 0 <= i < |tag| - 1 ==> !(tag[i] == '-' && tag[i + 1] == '-')
  }

  predicate IsSha256(h: string) {
    |h| == 64 && AllIn(h, c => IsDigit(c) || 'a' <= c <= 'f')
  }

  /** What constructing a `NoteFrontmatter` guarantees of it. */
  predicate Valid(fm: NoteFrontmatter) {
    && (forall i :: 0 <= i < |fm.tags| ==> Normalized(fm.tags[i]))
    && (forall i :: 0 <= i < |fm.sources| ==> IsSha256(fm.sources[i]))
    && ValidDate(fm.created) && ValidDate(fm.updated)
  }

  // ----- printer --------------------------------------------------------------------

  function SourceLine(sha: string): string { "  - " + sha }

  function SourceLines(sources: seq<string>): (r: seq<string>)
    ensures |r| > 0
  {
    if sources == [] then ["sources: []"] else ["sources:"] + Map(SourceLine, sources)
  }

  function HeaderLines(y: TitleCodec, fm: NoteFrontmatter): seq<string>
    requires Valid(fm)
  {
    ["title: " + y.dump(fm.title), "tags: [" + Join(fm.tags, ", ") + "]"] + SourceLines(fm.sources)
    + ["created: " + DateText(fm.created), "updated: " + DateText(fm.updated)]
  }

  function RenderNote(y: TitleCodec, n: Note): string
    requires Valid(n.frontmatter)
  {
    Join([DELIM] + HeaderLines(y, n.frontmatter) + [DELIM, ""], "\n") + "\n" + n.body
  }

  // ----- parser ---------------------------------------------------------------------

  const Missing := Exn(Terminal, "missing frontmatter")
  const Malformed := Exn(Terminal, "malformed frontmatter")

  predicate IsDelimiter(line: string) { Strip(line) == DELIM }

  /** The first line after `from` that is a delimiter, if any. */
  function ClosingLine(lines: seq<string>, from: nat): (r: Option<nat>)
    requires from <= |lines|
    ensures r.Some? ==> from <= r.value < |lines| && IsDelimiter(lines[r.value])
    ensures r.Some? ==> forall i :: from <= i < r.value ==> !IsDelimiter(lines[i])
    ensures r.None? ==> forall i :: from <= i < |lines| ==> !IsDelimiter(lines[i])
    decreases |lines| - from
  {
    if from == |lines| then None
    else if IsDelimiter(lines[from]) then Some(from)
    else ClosingLine(lines, from + 1)
  }

  /** The text after `prefix` on a line that starts with it. */
  function After(line: string, prefix: string): Result<string, Exn> {
    if StartsWith(line, prefix) then Ok(line[|prefix|..]) else Err(Malformed)
  }

  function LoadTitle(y: TitleCodec, line: string): Result<string, Exn> {
    var scalar :- After(line, "title: ");
    match y.load(scalar)
    case Some(title) => Ok(title)
    case None => Err(Malformed)
  }

  function LoadTags(line: string): Result<seq<string>, Exn> {
    var rest :- After(line, "tags: [");
    if !EndsWith(rest, "]") then Err(Malformed)
    else if rest == "]" then Ok([])
    else LoadAll(Map(Strip, Split(rest[..|rest| - 1], ',')))
  }

  function Hashes(lines: seq<string>): Result<seq<string>, Exn> {
    if lines == [] then Ok([])
    else
      var head :- After(lines[0], "  - ");
      var tail :- Hashes(lines[1..]);
      Ok([head] + tail)
  }

  function LoadSources(lines: seq<string>): Result<seq<string>, Exn> {
    if lines == ["sources: []"] then Ok([])
    else if |lines| < 2 || lines[0] != "sources:" then Err(Malformed)
    else
      var hashes :- Hashes(lines[1..]);
      LoadAll(hashes)
  }

  function LoadDate(line: string, prefix: string): Result<Date, Exn> {
    var scalar :- After(line, prefix);
    if !DateLike(scalar) then Err(Malformed)
    else if !ValidDate(DateOf(scalar)) then Err(Exn(Foreign, "day or month out of range"))
    else Ok(DateOf(scalar))
  }

  function LoadHeader(y: TitleCodec, lines: seq<string>): Result<NoteFrontmatter, Exn> {
    if |lines| < 5 then Err(Malformed)
    else
      var n := |lines|;
      var title :- LoadTitle(y, lines[0]);
      var tags :- LoadTags(lines[1]);
      var sources :- LoadSources(lines[2..n - 2]);
      var created :- LoadDate(lines[n - 2], "created: ");
      var updated :- LoadDate(lines[n - 1], "updated: ");
      var fm := NoteFrontmatter(title, tags, sources, created, updated);
      if Valid(fm) then Ok(fm) else Err(Malformed)
  }

  /** The body below the closing line, without the one blank line that separates them. */
  function BodyText(lines: seq<string>): string {
    var body := Join(lines, "\n");
    if StartsWith(body, "\n") then body[1..] else body
  }

  function ParseNote(y: TitleCodec, text: string): (r: Result<Parsed, Exn>)
  {
    var lines := Split(text, '\n');
    if !IsDelimiter(lines[0]) then Err(Missing)
    else
      match ClosingLine(lines, 1)
      case None => Err(Missing)
      case Some(k) =>
        var fm :- LoadHeader(y, lines[1..k]);
        Ok(Parsed(fm, BodyText(lines[k + 1..])))
  }

  // ----- parse after render ---------------------------------------------------------

  /** The title prints on one line and reads back as itself. */
  predicate FaithfulTitle(y: TitleCodec, title: string) {
    '\n' !in y.dump(title) && y.load(y.dump(title)) == Some(title)
  }

  /** Every tag and hash reads back as a string. */
  predicate Readable(fm: NoteFrontmatter) {
    && (forall i :: 0 <= i < |fm.tags| ==> ReadsAsString(fm.tags[i]))
    && (forall i :: 0 <= i < |fm.sources| ==> ReadsAsString(fm.sources[i]))
  }

  lemma AfterPrefix(prefix: string, rest: string)
    ensures After(prefix + rest, prefix) == Ok(rest)
  {
  }

  /** Where the opening word of a header line already tells it from a delimiter. */
  lemma NotDelimiter(line: string)
    requires line != "" && !IsSpace(line[0]) && line[0] != '-'
    ensures !IsDelimiter(line)
  {
    assert StripLeft(line) == line;
    StripRightIsPrefix(line);
  }

  lemma {:induction false} SourceLineNotDelimiter(sha: string)
    requires IsSha256(sha)
    ensures !IsDelimiter(SourceLine(sha)) && '\n' !in SourceLine(sha)
  {
    var line := SourceLine(sha);
    assert line[1..] == " - " + sha && line[1..][1..] == "- " + sha;
    assert StripLeft(line) == StripLeft(line[1..]) == StripLeft(line[1..][1..]) == "- " + sha;
    assert !IsSpace(sha[63]);
    StripKeeps("- " + sha);
  }

  lemma StripSpaceBefore(word: string)
    requires Normalized(word)
    ensures Strip(word) == word && Strip(" " + word) == word
    ensures ',' !in word && ',' !in " " + word && '\n' !in word
  {
  }

  /** The first of several tags, with or without the space that follows a comma. */
  lemma FirstTag(lead: string, head: string, rest: string)
    requires ',' !in lead + head
    ensures Split(lead + (head + ", " + rest), ',') == [lead + head] + Split(" " + rest, ',')
  {
    assert lead + (head + ", " + rest) == (lead + head) + [','] + (" " + rest);
    SplitAppend(lead + head, ',', " " + rest);
  }

  lemma MapStripCons(x: string, ys: seq<string>)
    ensures Map(Strip, [x] + ys) == [Strip(x)] + Map(Strip, ys)
  {
  }

  lemma MapStripOne(x: string)
    ensures Map(Strip, [x]) == [Strip(x)]
  {
  }

  lemma NormalizedHead(head: string)
    requires Normalized(head)
    ensures head != "" && "" + head == head && ',' !in head && '\n' !in head
  {
  }

  lemma {:induction false} TagsRoundTrip(tags: seq<string>)
    requires |tags| > 0
    requires forall i :: 0 <= i < |tags| ==> Normalized(tags[i])
    ensures Map(Strip, Split(Join(tags, ", "), ',')) == tags
    ensures Map(Strip, Split(" " + Join(tags, ", "), ',')) == tags
    ensures Join(tags, ", ") != "" && '\n' !in Join(tags, ", ")
  {
    hide Strip, Normalized, Split, Map;
    var head := tags[0];
    NormalizedHead(head);
    StripSpaceBefore(head);
    if |tags| == 1 {
      SplitFree(head, ',');
      SplitFree(" " + head, ',');
      MapStripOne(head);
      MapStripOne(" " + head);
      assert tags == [head];
    } else {
      var rest := Join(tags[1..], ", ");
      TagsRoundTrip(tags[1..]);
      FirstTag("", head, rest);
      FirstTag(" ", head, rest);
      assert "" + (head + ", " + rest) == head + ", " + rest;
      MapStripCons(head, Split(" " + rest, ','));
      MapStripCons(" " + head, Split(" " + rest, ','));
      assert tags == [head] + tags[1..];
    }
  }

  lemma TagLineRoundTrip(tags: seq<string>)
    requires forall i :: 0 <= i < |tags| ==> Normalized(tags[i])
    ensures LoadTags("tags: [" + Join(tags, ", ") + "]") == LoadAll(tags)
  {
    var inner := Join(tags, ", ");
    var line := "tags: [" + inner + "]";
    assert line == "tags: [" + (inner + "]");
    AfterPrefix("tags: [", inner + "]");
    assert EndsWith(inner + "]", "]");
    assert (inner + "]")[..|inner|] == inner;
    if tags != [] {
      TagsRoundTrip(tags);
    }
  }

  lemma {:induction false} HashLinesRoundTrip(sources: seq<string>)
    ensures Hashes(Map(SourceLine, sources)) == Ok(sources)
  {
    if sources == [] {
    } else {
      AfterPrefix("  - ", sources[0]);
      HashLinesRoundTrip(sources[1..]);
      assert Map(SourceLine, sources)[0] == "  - " + sources[0];
      assert Map(SourceLine, sources)[1..] == Map(SourceLine, sources[1..]);
      assert [sources[0]] + sources[1..] == sources;
    }
  }

  lemma SourceLinesRoundTrip(sources: seq<string>)
    ensures LoadSources(SourceLines(sources)) == LoadAll(sources)
  {
    if sources != [] {
      HashLinesRoundTrip(sources);
      var lines := SourceLines(sources);
      assert lines[1..] == Map(SourceLine, sources);
    }
  }

  lemma DateLineRoundTrip(prefix: string, d: Date)
    requires ValidDate(d)
    ensures LoadDate(prefix + DateText(d), prefix) == Ok(d)
  {
    AfterPrefix(prefix, DateText(d));
    DateRoundTrip(d);
  }

  /** Loading a printed header succeeds exactly when every tag and hash reads as a string. */
  lemma HeaderRoundTrip(y: TitleCodec, fm: NoteFrontmatter)
    requires Valid(fm) && FaithfulTitle(y, fm.title)
    ensures Readable(fm) ==> LoadHeader(y, HeaderLines(y, fm)) == Ok(fm)
    ensures !Readable(fm) ==> LoadHeader(y, HeaderLines(y, fm)).Err?
  {
    hide DateText, ValidDate, LoadTags, LoadSources, LoadDate, SourceLines, ReadsAsString;
    var lines := HeaderLines(y, fm);
    var n := |lines|;
    AfterPrefix("title: ", y.dump(fm.title));
    TagLineRoundTrip(fm.tags);
    assert lines[2..n - 2] == SourceLines(fm.sources);
    SourceLinesRoundTrip(fm.sources);
    DateLineRoundTrip("created: ", fm.created);
    DateLineRoundTrip("updated: ", fm.updated);
  }

  predicate Inside(line: string) { '\n' !in line && !IsDelimiter(line) }

  lemma SourceLinesAreInside(sources: seq<string>)
    requires forall i :: 0 <= i < |sources| ==> IsSha256(sources[i])
    ensures forall line :: line in SourceLines(sources) ==> Inside(line)
  {
    NotDelimiter("sources: []");
    NotDelimiter("sources:");
    forall line | line in Map(SourceLine, sources)
      ensures Inside(line)
    {
      var i :| 0 <= i < |sources| && line == SourceLine(sources[i]);
      SourceLineNotDelimiter(sources[i]);
    }
  }

  lemma TagLineIsInside(tags: seq<string>)
    requires forall i :: 0 <= i < |tags| ==> Normalized(tags[i])
    ensures Inside("tags: [" + Join(tags, ", ") + "]")
  {
    hide IsDelimiter, Strip, Normalized;
    if tags != [] {
      TagsRoundTrip(tags);
    }
    NotDelimiter("tags: [" + Join(tags, ", ") + "]");
  }

  /** No header line is a delimiter or spans lines, so the header ends where it was closed. */
  lemma HeaderLinesAreInside(y: TitleCodec, fm: NoteFrontmatter)
    requires Valid(fm) && FaithfulTitle(y, fm.title)
    ensures forall line :: line in HeaderLines(y, fm) ==> Inside(line)
  {
    hide IsDelimiter, Join, DateText, ValidDate, Normalized, IsSha256;
    TagLineIsInside(fm.tags);
    SourceLinesAreInside(fm.sources);
    NotDelimiter("title: " + y.dump(fm.title));
    NotDelimiter("created: " + DateText(fm.created));
    NotDelimiter("updated: " + DateText(fm.updated));
  }

  /** The text of a rendered note splits into its delimited header, a blank line and the body. */
  lemma RenderedLines(y: TitleCodec, n: Note)
    requires Valid(n.frontmatter) && FaithfulTitle(y, n.frontmatter.title)
    ensures Split(RenderNote(y, n), '\n')
         == [DELIM] + HeaderLines(y, n.frontmatter) + [DELIM, ""] + Split(n.body, '\n')
  {
    hide IsDelimiter, DateText, ValidDate, HeaderLines, Split;
    HeaderLinesAreInside(y, n.frontmatter);
    var top := [DELIM] + HeaderLines(y, n.frontmatter) + [DELIM, ""];
    JoinSplit(n.body, '\n');
    JoinAppend(top, Split(n.body, '\n'), "\n");
    forall i | 0 <= i < |top|
      ensures '\n' !in top[i]
    {
      if 1 <= i < |top| - 2 {
        assert top[i] in HeaderLines(y, n.frontmatter);
      }
    }
    SplitJoin(top + Split(n.body, '\n'), '\n');
  }

  lemma BodyBelow(body: string)
    ensures BodyText([""] + Split(body, '\n')) == body
  {
    JoinAppend([""], Split(body, '\n'), "\n");
    JoinSplit(body, '\n');
    assert ("\n" + body)[1..] == body;
  }

  lemma ClosingLineAfter(header: seq<string>, below: seq<string>)
    requires forall line :: line in header ==> Inside(line)
    ensures ClosingLine([DELIM] + header + [DELIM] + below, 1) == Some(|header| + 1)
  {
    var lines := [DELIM] + header + [DELIM] + below;
    var k := |header| + 1;
    StripKeeps(DELIM);
    assert lines[k] == DELIM;
    forall i | 1 <= i < k
      ensures !IsDelimiter(lines[i])
    {
      assert lines[i] == header[i - 1];
      assert Inside(header[i - 1]);
    }
  }

  /** Parsing a rendered note gives it back, whatever its body, exactly when every tag and
    * hash reads as a string; otherwise the note just written cannot be read at all. */
  lemma ParseAfterRender(y: TitleCodec, n: Note)
    requires Valid(n.frontmatter) && FaithfulTitle(y, n.frontmatter.title)
    ensures Readable(n.frontmatter) ==> ParseNote(y, RenderNote(y, n)) == Ok(Parsed(n.frontmatter, n.body))
    ensures !Readable(n.frontmatter) ==> ParseNote(y, RenderNote(y, n)).Err?
  {
    hide IsDelimiter, Strip, HeaderLines, LoadHeader, Split, ClosingLine, RenderNote, BodyText;
    var header := HeaderLines(y, n.frontmatter);
    var below := [""] + Split(n.body, '\n');
    var lines := Split(RenderNote(y, n), '\n');
    RenderedLines(y, n);
    assert lines == [DELIM] + header + [DELIM] + below;
    HeaderLinesAreInside(y, n.frontmatter);
    ClosingLineAfter(header, below);
    StripKeeps(DELIM);
    assert lines[1..|header| + 1] == header;
    assert lines[|header| + 2..] == below;
    HeaderRoundTrip(y, n.frontmatter);
    BodyBelow(n.body);
  }

  /** The tag step accepts `2026`; a note that carries it renders but never parses again. */
  lemma NumericTagIsUnreadable(y: TitleCodec, n: Note)
    requires n.frontmatter.tags == ["2026"] && n.frontmatter.sources == []
    requires ValidDate(n.frontmatter.created) && ValidDate(n.frontmatter.updated)
    requires FaithfulTitle(y, n.frontmatter.title)
    ensures Normalized("2026") && Valid(n.frontmatter)
    ensures ParseNote(y, RenderNote(y, n)).Err?
  {
    assert IntLike(n.frontmatter.tags[0]);
    ParseAfterRender(y, n);
  }
}
