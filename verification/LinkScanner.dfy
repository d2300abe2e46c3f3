/** The scanning loops of the link module, each proved to compute its specification. */
module LinkScanner {
  import opened Prelude
  import opened Text
  import opened Dedupes
  import opened Links

  method StripCodeLines(text: string) returns (r: string)
    ensures r == StripCode(text)
  {
    var lines := Split(text, '\n');
    var out: seq<string> := [];
    var fence: Option<char> := None;
    for i := 0 to |lines|
      invariant out + BlankCode(fence, lines[i..]) == BlankCode(None, lines)
    {
      var line := lines[i];
      var marker := FenceChar(line);
      assert lines[i..][0] == line && lines[i..][1..] == lines[i + 1..];
      if fence.None? && marker.Some? {
        fence := marker;
        out := out + [""];
      } else if fence.Some? {
        out := out + [""];
        if marker == fence {
          fence := None;
        }
      } else {
        out := out + [line];
      }
    }
    assert BlankCode(fence, lines[|lines|..]) == [];
    assert out == BlankCode(None, lines);
    r := RemoveSpans(Join(out, "\n"));
  }

  method ExtractLinks(body: string) returns (links: seq<Link>)
    ensures links == ExtractedLinks(body)
  {
    var text := StripCodeLines(body);
    var matches := FindAll(text);
    links := [];
    for i := 0 to |matches|
      invariant links + LinksOf(matches[i..]) == LinksOf(matches)
    {
      assert matches[i..][0] == matches[i] && matches[i..][1..] == matches[i + 1..];
      if TargetOf(matches[i]) != "" {
        links := links + [ToLink(matches[i])];
      }
    }
    assert LinksOf(matches[|matches|..]) == [];
  }

  /** What scanning on past a match, or past a character, leaves to rewrite. */
  lemma SubStep(s: string, wanted: set<string>)
    requires s != ""
    ensures MatchLink(s).None? ==> Sub(s, wanted) == [s[0]] + Sub(s[1..], wanted)
    ensures MatchLink(s).None? ==> SubTargets(s, wanted) == SubTargets(s[1..], wanted)
    ensures MatchLink(s).Some? ==> var m := MatchLink(s).value; var rest := Beyond(s, m);
      && |rest| < |s|
      && Sub(s, wanted) == (if TargetOf(m) in wanted then PlainText(m) else Source(m)) + Sub(rest, wanted)
      && SubTargets(s, wanted) == (if TargetOf(m) in wanted then [TargetOf(m)] else []) + SubTargets(rest, wanted)
  {
  }

  lemma NothingToRewrite(wanted: set<string>, seen: seq<string>)
    ensures Sub("", wanted) == "" && SubTargets("", wanted) == [] && seen + [] == seen
  {
  }

  /** Collecting one more target. */
  lemma CollectedOne(seen: seq<string>, done: seq<string>, target: string)
    ensures var all := Dedupe(seen + done);
      Dedupe(seen + (done + [target])) == if target in all then all else all + [target]
  {
    assert Init(seen + (done + [target])) == seen + done;
    assert seen + (done + [target]) == (seen + done) + [target];
  }

  /** One segment; `seen` collects the rewritten targets, each once. */
  method SubSegment(s: string, wanted: set<string>, seen: seq<string>) returns (r: string, downgraded: seq<string>)
    requires Dedupe(seen) == seen
    ensures r == Sub(s, wanted)
    ensures downgraded == Dedupe(seen + SubTargets(s, wanted))
  {
    hide *;
    r, downgraded := "", seen;
    var rest := s;
    ghost var done: seq<string> := [];
    NothingToRewrite(wanted, seen);
    while rest != ""
      invariant r + Sub(rest, wanted) == Sub(s, wanted)
      invariant done + SubTargets(rest, wanted) == SubTargets(s, wanted)
      invariant downgraded == Dedupe(seen + done)
      decreases |rest|
    {
      SubStep(rest, wanted);
      match MatchLink(rest)
      case Some(m) =>
        if TargetOf(m) in wanted {
          CollectedOne(seen, done, TargetOf(m));
          done := done + [TargetOf(m)];
          if TargetOf(m) !in downgraded {
            downgraded := downgraded + [TargetOf(m)];
          }
          r := r + PlainText(m);
        } else {
          r := r + Source(m);
        }
        rest := Beyond(rest, m);
      case None =>
        r, rest := r + [rest[0]], rest[1..];
    }
    assert done == SubTargets(s, wanted);
  }

  /** A line that is not code: the even segments rewritten, the spans verbatim. */
  method SubLineSegments(line: string, wanted: set<string>, seen: seq<string>)
    returns (r: string, downgraded: seq<string>)
    requires Dedupe(seen) == seen
    ensures r == SubLine(line, wanted)
    ensures downgraded == Dedupe(seen + LineTargets(line, wanted))
  {
    hide *;
    LineSegments(line, wanted);
    var segments := SplitSpans(line);
    r, downgraded := "", seen;
    ghost var done: seq<string> := [];
    LeftAtEnds(segments, wanted);
    assert seen + [] == seen && done + LeftTargets(segments, 0, wanted) == LeftTargets(segments, 0, wanted);
    var i := 0;
    while i < |segments|
      invariant i % 2 == 0
      invariant r + Left(segments, i, wanted) == SubSegments(segments, wanted)
      invariant done + LeftTargets(segments, i, wanted) == SegmentTargets(segments, wanted)
      invariant downgraded == Dedupe(seen + done)
    {
      Collected(seen, done, SubTargets(segments[i], wanted));
      LeftStep(segments, i, wanted);
      var text;
      text, downgraded := SubSegment(segments[i], wanted, downgraded);
      done := done + SubTargets(segments[i], wanted);
      r := r + text;
      if i + 1 < |segments| {
        r := r + segments[i + 1];
      }
      i := i + 2;
    }
    LeftAtEnd(segments, i, wanted);
    assert done + [] == done && r + "" == r;
  }

  /** What is still to come from segment `i` on. */
  function Left(segments: seq<string>, i: nat, wanted: set<string>): string
    requires |segments| % 2 == 1 && i % 2 == 0
  {
    if i < |segments| then SubSegments(segments[i..], wanted) else ""
  }

  function LeftTargets(segments: seq<string>, i: nat, wanted: set<string>): seq<string>
    requires |segments| % 2 == 1 && i % 2 == 0
  {
    if i < |segments| then SegmentTargets(segments[i..], wanted) else []
  }

  lemma LeftAtEnds(segments: seq<string>, wanted: set<string>)
    requires |segments| % 2 == 1
    ensures Left(segments, 0, wanted) == SubSegments(segments, wanted)
    ensures LeftTargets(segments, 0, wanted) == SegmentTargets(segments, wanted)
  {
    assert segments[0..] == segments;
  }

  lemma LeftAtEnd(segments: seq<string>, i: nat, wanted: set<string>)
    requires |segments| % 2 == 1 && i % 2 == 0 && i >= |segments|
    ensures Left(segments, i, wanted) == "" && LeftTargets(segments, i, wanted) == []
  {
  }

  lemma LeftStep(segments: seq<string>, i: nat, wanted: set<string>)
    requires |segments| % 2 == 1 && i % 2 == 0 && i < |segments|
    ensures Left(segments, i, wanted) ==
      Sub(segments[i], wanted) + (if i + 1 < |segments| then segments[i + 1] else "") + Left(segments, i + 2, wanted)
    ensures LeftTargets(segments, i, wanted) == SubTargets(segments[i], wanted) + LeftTargets(segments, i + 2, wanted)
  {
    hide Sub, SubTargets, SubSegments, SegmentTargets;
    var left := segments[i..];
    SubSegmentsStep(left, wanted);
    assert left[0] == segments[i];
    if i + 1 < |segments| {
      assert left[1] == segments[i + 1] && left[2..] == segments[i + 2..];
    } else {
      assert |left| == 1;
      assert Sub(left[0], wanted) + "" + "" == Sub(left[0], wanted);
      assert SubTargets(left[0], wanted) + [] == SubTargets(left[0], wanted);
    }
  }

  /** Collecting more targets into an already collected list. */
  lemma Collected(seen: seq<string>, done: seq<string>, more: seq<string>)
    ensures Dedupe(Dedupe(seen + done) + more) == Dedupe(seen + (done + more))
    ensures Dedupe(Dedupe(seen + done)) == Dedupe(seen + done)
  {
    hide *;
    DedupeAbsorbs(seen + done, more);
    assert (seen + done) + more == seen + (done + more);
    DedupeOfDistinct(Dedupe(seen + done));
  }

  /** Rewrites the wanted links outside code; also lists their targets in first-seen order. */
  method DowngradeLinks(body: string, wanted: set<string>) returns (r: string, downgraded: seq<string>)
    ensures r == Downgraded(body, wanted)
    ensures downgraded == Dedupe(DowngradedTargets(body, wanted))
  {
    hide *;
    DowngradeLinesUp(body, wanted);
    var lines := Split(body, '\n');
    var out: seq<string> := [];
    var fence: Option<char> := None;
    ghost var done: seq<string> := [];
    downgraded := [];
    assert lines[0..] == lines && [] + SubLines(None, lines, wanted) == SubLines(None, lines, wanted);
    assert [] + LinesTargets(None, lines, wanted) == LinesTargets(None, lines, wanted);
    for i := 0 to |lines|
      invariant out + SubLines(fence, lines[i..], wanted) == SubLines(None, lines, wanted)
      invariant done + LinesTargets(fence, lines[i..], wanted) == LinesTargets(None, lines, wanted)
      invariant downgraded == Dedupe(done)
    {
      var line := lines[i];
      var marker := FenceChar(line);
      assert lines[i..][0] == line && lines[i..][1..] == lines[i + 1..];
      SubLinesStep(fence, lines[i..], wanted);
      FenceCases(fence, line);
      if fence.None? && marker.Some? {
        fence := marker;
        out := out + [line];
      } else if fence.Some? {
        out := out + [line];
        if marker == fence {
          fence := None;
        }
      } else {
        Collected([], done, LineTargets(line, wanted));
        assert [] + done == done && [] + (done + LineTargets(line, wanted)) == done + LineTargets(line, wanted);
        var rewritten;
        rewritten, downgraded := SubLineSegments(line, wanted, downgraded);
        done := done + LineTargets(line, wanted);
        out := out + [rewritten];
      }
    }
    NoLinesLeft(fence, wanted);
    assert lines[|lines|..] == [];
    assert out == SubLines(None, lines, wanted) && done == LinesTargets(None, lines, wanted);
    r := Join(out, "\n");
  }

  lemma DowngradeLinesUp(body: string, wanted: set<string>)
    ensures Downgraded(body, wanted) == Join(SubLines(None, Split(body, '\n'), wanted), "\n")
    ensures DowngradedTargets(body, wanted) == LinesTargets(None, Split(body, '\n'), wanted)
    ensures Dedupe([]) == []
  {
  }

  lemma NoLinesLeft(fence: Option<char>, wanted: set<string>)
    ensures SubLines(fence, [], wanted) == [] && LinesTargets(fence, [], wanted) == []
  {
  }

  lemma LinkKeysAdd(paths: set<string>, path: string)
    ensures LinkKeys(paths + {path}) == LinkKeys(paths) + {Stem(path)} + {BaseName(Stem(path))}
  {
    hide Stem, BaseName;
  }

  lemma NoKeys()
    ensures LinkKeys({}) == {}
  {
  }

  method Index(paths: set<string>) returns (keys: set<string>)
    ensures keys == LinkKeys(paths)
  {
    hide *;
    NoKeys();
    assert paths - paths == {};
    keys := {};
    var todo := paths;
    while todo != {}
      invariant todo <= paths && keys == LinkKeys(paths - todo)
      decreases |todo|
    {
      var path :| path in todo;
      assert paths - (todo - {path}) == (paths - todo) + {path};
      LinkKeysAdd(paths - todo, path);
      keys := keys + {Stem(path)} + {BaseName(Stem(path))};
      todo := todo - {path};
    }
    assert paths - {} == paths;
  }

  /** The links that resolve to no known note. */
  method CheckLinks(links: seq<Link>, existing: set<string>, created: set<string>) returns (dangling: seq<Link>)
    ensures dangling == Dangling(links, existing, created)
  {
    var keys := Index(existing);
    var createdKeys := Index(created);
    var resolvable := keys + createdKeys;
    dangling := [];
    for i := 0 to |links|
      invariant dangling + Dangling(links[i..], existing, created) == Dangling(links, existing, created)
    {
      assert links[i..][0] == links[i] && links[i..][1..] == links[i + 1..];
      if links[i].target !in resolvable {
        dangling := dangling + [links[i]];
      }
    }
    assert Dangling(links[|links|..], existing, created) == [];
  }
}
