/** The derived tag vocabulary: counted, ranked, cut to a byte budget, cached under HEAD. */
module Vocabularies {
  import opened Prelude
  import opened Text
  import opened Utf8
  import opened Ordering
  import opened Frontmatter
  import opened Git
  import opened Ingest
  import Notes
  import Paths

  datatype TagCount = TagCount(tag: string, count: nat)

  datatype Vocabulary = Vocabulary(tags: seq<TagCount>, total: nat, truncated: bool, omitted: nat, fromCache: bool)

  // ----- counting -------------------------------------------------------------------

  /** The tags of one file; the schema and notes that do not parse count nothing. */
  function TagsIn(y: TitleCodec, t: Tree, f: File): multiset<string> {
    if f !in t || !f.NoteFile? || Notes.IsSchema(f.path) || ParseNote(y, TextAt(t, f).value).Err? then multiset{}
    else multiset(ParseNote(y, TextAt(t, f).value).value.frontmatter.tags)
  }

  /** The tags of a set of files, counted with multiplicity. */
  ghost function TagsOf(y: TitleCodec, t: Tree, files: set<File>): multiset<string> {
    if files == {} then multiset{}
    else
      var f :| f in files;
      TagsIn(y, t, f) + TagsOf(y, t, files - {f})
  }

  /** The count does not depend on the order in which the files are read. */
  lemma {:induction false} TagsOfAny(y: TitleCodec, t: Tree, files: set<File>, f: File)
    requires f in files
    ensures TagsOf(y, t, files) == TagsIn(y, t, f) + TagsOf(y, t, files - {f})
    decreases |files|
  {
    hide TagsIn;
    var g :| g in files && TagsOf(y, t, files) == TagsIn(y, t, g) + TagsOf(y, t, files - {g});
    if g != f {
      TagsOfAny(y, t, files - {g}, f);
      TagsOfAny(y, t, files - {f}, g);
      assert files - {g} - {f} == files - {f} - {g};
    }
  }

  ghost function Counter(y: TitleCodec, t: Tree): multiset<string> { TagsOf(y, t, t.Keys) }

  lemma {:induction false} TagsOfAgree(y: TitleCodec, t: Tree, u: Tree, files: set<File>)
    requires forall f :: f in files ==> f in t && f in u && t[f] == u[f]
    ensures TagsOf(y, t, files) == TagsOf(y, u, files)
    decreases |files|
  {
    if files == {} {
    } else {
      var f :| f in files;
      TagsOfAny(y, t, files, f);
      TagsOfAny(y, u, files, f);
      TagsOfAgree(y, t, u, files - {f});
      assert TagsIn(y, t, f) == TagsIn(y, u, f);
    }
  }

  /** What is counted, file by file: an empty tree has no tags, and one more file adds those of
    * its frontmatter if it is a note that parses, and otherwise none. */
  lemma CountedExactly(y: TitleCodec, t: Tree, f: File, blob: Blob)
    requires f !in t
    ensures Counter(y, map[]) == multiset{}
    ensures var parsed := ParseNote(y, if blob.Text? then blob.text else "");
      Counter(y, t[f := blob]) ==
        if f.NoteFile? && !Notes.IsSchema(f.path) && parsed.Ok?
        then Counter(y, t) + multiset(parsed.value.frontmatter.tags)
        else Counter(y, t)
  {
    hide ParseNote, Notes.IsSchema;
    var u := t[f := blob];
    TagsOfAny(y, u, u.Keys, f);
    assert u.Keys - {f} == t.Keys;
    TagsOfAgree(y, t, u, t.Keys);
  }

  method ScanTags(y: TitleCodec, t: Tree) returns (counter: multiset<string>)
    ensures counter == Counter(y, t)
  {
    hide TagsIn;
    counter := multiset{};
    var todo := t.Keys;
    while todo != {}
      invariant todo <= t.Keys && counter + TagsOf(y, t, todo) == Counter(y, t)
      decreases |todo|
    {
      var f :| f in todo;
      TagsOfAny(y, t, todo, f);
      counter := counter + TagsIn(y, t, f);
      todo := todo - {f};
    }
  }

  // ----- ranking --------------------------------------------------------------------

  /** By count, highest first, then by tag. */
  predicate Before(a: TagCount, b: TagCount) {
    a.count > b.count || (a.count == b.count && StrLe(a.tag, b.tag))
  }

  lemma BeforeIsOrder()
    ensures IsOrder(Before)
  {
    StrLeIsOrder();
    forall a, b, c | Before(a, b) && Before(b, c)
      ensures Before(a, c)
    {
      if a.count == b.count == c.count {
        StrLeTransitive(a.tag, b.tag, c.tag);
      }
    }
    forall a, b
      ensures Before(a, b) || Before(b, a)
    {
      StrLeTotal(a.tag, b.tag);
    }
    forall a, b | Before(a, b) && Before(b, a)
      ensures a == b
    {
      StrLeAntisymmetric(a.tag, b.tag);
    }
  }

  /** The ranking of a counter: sorted, each tag once, every count kept. */
  ghost predicate RankingOf(counter: multiset<string>, ranked: seq<TagCount>) {
    && IsSorted(Before, ranked) && Distinct(ranked)
    && forall e: TagCount :: e in ranked <==> e.tag in counter && e.count == counter[e.tag]
  }

  method Rank(counter: multiset<string>) returns (ranked: seq<TagCount>)
    ensures RankingOf(counter, ranked)
  {
    var rest := counter;
    var entries: seq<TagCount> := [];
    while rest != multiset{}
      invariant rest <= counter
      invariant forall tag :: tag in rest ==> rest[tag] == counter[tag]
      invariant forall e: TagCount :: e in entries <==> e.tag in counter && e.tag !in rest && e.count == counter[e.tag]
      invariant Distinct(entries)
      decreases |rest|
    {
      var tag :| tag in rest;
      entries := entries + [TagCount(tag, counter[tag])];
      rest := rest[tag := 0];
    }
    ranked := Sorted(Before, entries);
    BeforeIsOrder();
    SortedSorts(Before, entries);
    SameElements(entries, ranked);
    assert forall e :: e in ranked <==> e in ToSet(ranked);
    assert forall e :: e in entries <==> e in ToSet(entries);
  }

  /** A counter has one ranking, and a ranking one counter. */
  lemma {:induction false} SortedIsUnique(a: seq<TagCount>, b: seq<TagCount>)
    requires IsSorted(Before, a) && IsSorted(Before, b) && Distinct(a) && Distinct(b)
    requires forall e :: e in a <==> e in b
    ensures a == b
  {
    if a == [] {
      assert forall i :: 0 <= i < |b| ==> b[i] in b;
    } else {
      assert a[0] in b;
      assert b[0] in a;
      BeforeIsOrder();
      assert Before(a[0], b[0]) && Before(b[0], a[0]);
      assert a == [a[0]] + a[1..] && b == [b[0]] + b[1..];
      forall e
        ensures e in a[1..] <==> e in b[1..]
      {
        if e in a[1..] {
          assert e in a && e != a[0];
        }
        if e in b[1..] {
          assert e in b && e != b[0];
        }
      }
      SortedIsUnique(a[1..], b[1..]);
    }
  }

  lemma RankingIsUnique(counter: multiset<string>, other: multiset<string>, a: seq<TagCount>, b: seq<TagCount>)
    requires RankingOf(counter, a) && RankingOf(other, b)
    ensures a == b <==> counter == other
  {
    if counter == other {
      SortedIsUnique(a, b);
    }
    if a == b {
      forall tag
        ensures counter[tag] == other[tag]
      {
        var e, o := TagCount(tag, counter[tag]), TagCount(tag, other[tag]);
        assert tag in counter ==> e in a;
        assert tag in other ==> o in b;
      }
    }
  }

  // ----- the byte budget ------------------------------------------------------------

  function Decimal(n: nat): string {
    var digit := [('0' as int + n % 10) as char];
    if n < 10 then digit else Decimal(n / 10) + digit
  }

  function Line(e: TagCount): string { e.tag + " (" + Decimal(e.count) + ")" }

  /** The size of the rendered lines. */
  function Bytes(ranked: seq<TagCount>): nat {
    |Encode(Join(Map((e: TagCount) => Line(e), ranked), "\n"))|
  }

  /** One more line costs its bytes, and a newline unless it is the first. */
  lemma BytesOfNext(ranked: seq<TagCount>, e: TagCount)
    ensures Bytes(ranked + [e]) == Bytes(ranked) + |Encode(Line(e))| + (if ranked == [] then 0 else 1)
  {
    hide Encode, Line;
    var line := (x: TagCount) => Line(x);
    MapConcat(line, ranked, [e]);
    assert Map(line, ranked + [e]) == Map(line, ranked) + [Line(e)];
    if ranked == [] {
      assert Map(line, ranked + [e]) == [Line(e)];
      EncodeNothing();
    } else {
      JoinAppend(Map(line, ranked), [Line(e)], "\n");
      var before := Join(Map(line, ranked), "\n");
      Paths.EncodeConcat(before + "\n", Line(e));
      Paths.EncodeConcat(before, "\n");
      Paths.AsciiLength("\n");
    }
  }

  lemma EncodeNothing()
    ensures Encode("") == []
  {
  }

  lemma {:induction false} BytesGrow(ranked: seq<TagCount>, j: nat, k: nat)
    requires j <= k <= |ranked|
    ensures Bytes(ranked[..j]) <= Bytes(ranked[..k])
  {
    hide Bytes;
    if j < k {
      BytesGrow(ranked, j, k - 1);
      BytesOfNext(ranked[..k - 1], ranked[k - 1]);
      assert ranked[..k] == ranked[..k - 1] + [ranked[k - 1]];
    }
  }

  /** The first `k` tags are what fits: at least one, otherwise the longest prefix whose
    * lines take at most `maxBytes`. */
  predicate Fits(ranked: seq<TagCount>, maxBytes: int, k: nat) {
    && k <= |ranked| && (ranked != [] ==> k >= 1)
    && forall j :: 2 <= j <= |ranked| ==> (j <= k <==> Bytes(ranked[..j]) <= maxBytes)
  }

  function Cut(ranked: seq<TagCount>, k: nat, fromCache: bool): Vocabulary
    requires k <= |ranked|
  {
    Vocabulary(ranked[..k], |ranked|, k < |ranked|, |ranked| - k, fromCache)
  }

  method CutToBudget(ranked: seq<TagCount>, maxBytes: int) returns (v: Vocabulary)
    ensures Fits(ranked, maxBytes, |v.tags|) && v == Cut(ranked, |v.tags|, false)
    ensures |v.tags| + v.omitted == v.total == |ranked|
  {
    hide Bytes;
    var kept: seq<TagCount> := [];
    var used := 0;
    BytesOfNone();
    for i := 0 to |ranked|
      invariant kept == ranked[..i] && used == Bytes(kept)
      invariant forall j :: 2 <= j <= i ==> Bytes(ranked[..j]) <= maxBytes
    {
      var addition := |Encode(Line(ranked[i]))| + if kept == [] then 0 else 1;
      BytesOfNext(kept, ranked[i]);
      assert ranked[..i + 1] == kept + [ranked[i]];
      if kept != [] && used + addition > maxBytes {
        forall j | i < j <= |ranked|
          ensures Bytes(ranked[..j]) > maxBytes
        {
          BytesGrow(ranked, i + 1, j);
        }
        return Cut(ranked, i, false);
      }
      kept, used := kept + [ranked[i]], used + addition;
    }
    assert kept == ranked;
    v := Cut(ranked, |ranked|, false);
  }

  lemma BytesOfNone()
    ensures Bytes([]) == 0
  {
  }

  /** The budget leaves no choice. */
  lemma FitsOnce(ranked: seq<TagCount>, maxBytes: int, j: nat, k: nat)
    requires Fits(ranked, maxBytes, j) && Fits(ranked, maxBytes, k)
    ensures j == k
  {
    FitsAtMost(ranked, maxBytes, j, k);
    FitsAtMost(ranked, maxBytes, k, j);
  }

  lemma FitsAtMost(ranked: seq<TagCount>, maxBytes: int, j: nat, k: nat)
    requires Fits(ranked, maxBytes, j) && Fits(ranked, maxBytes, k)
    ensures k <= j
  {
    hide Bytes;
    assert k >= 2 ==> Bytes(ranked[..k]) <= maxBytes;
    assert k >= 2 && Bytes(ranked[..k]) <= maxBytes ==> k <= j;
  }

  // ----- the cache ------------------------------------------------------------------

  datatype Entry = Entry(head: nat, ranked: seq<TagCount>)

  /** A cached ranking is that of the commit it is filed under, if that is on the chain; ids
    * not minted yet have no entry. */
  ghost predicate CacheOk(y: TitleCodec, r: Repo, entry: Option<Entry>) {
    entry.Some? ==>
      && entry.value.head < r.minted
      && forall c :: c in r.chain && c.id == entry.value.head ==> RankingOf(Counter(y, c.tree), entry.value.ranked)
  }

  /** What a scan of the work tree gives, apart from where it came from. */
  ghost predicate FreshScan(y: TitleCodec, work: Tree, maxBytes: int, v: Vocabulary) {
    exists ranked :: RankingOf(Counter(y, work), ranked) && Fits(ranked, maxBytes, |v.tags|)
      && v == Cut(ranked, |v.tags|, v.fromCache)
  }

  /** An answer, and what it makes of the entry: the cache is used exactly when it has an entry
    * for HEAD, and afterwards it has one; any other answer is a scan of the work tree. */
  ghost predicate Answers(y: TitleCodec, r: Repo, maxBytes: int, before: Option<Entry>, v: Vocabulary,
                          after: Option<Entry>)
    requires ValidRepo(r)
  {
    && after.Some? && after.value.head == Last(r.chain).id
    && (v.fromCache <==> before.Some? && before.value.head == Last(r.chain).id)
    && (if v.fromCache then after == before else RankingOf(Counter(y, r.work), after.value.ranked))
    && Fits(after.value.ranked, maxBytes, |v.tags|) && v == Cut(after.value.ranked, |v.tags|, v.fromCache)
  }

  class VocabularyCache {
    var entry: Option<Entry>

    constructor ()
      ensures entry == None
    {
      entry := None;
    }

    /** It raises only if git does. A right entry answers as a scan of HEAD's tree would. Afterwards the cache is right
      * exactly when it was used or the tree has HEAD's tags, as a clean one does. */
    method Derive(y: TitleCodec, repo: GitRepo, maxBytes: int) returns (r: Result<Vocabulary, Exn>)
      requires ValidRepo(repo.repo)
      modifies this, repo`failures
      ensures r.Err? ==> entry == old(entry)
      ensures repo.failures == old(repo.failures) + Raising(r)
      ensures r.Ok? ==> Answers(y, repo.repo, maxBytes, old(entry), r.value, entry)
      ensures r.Ok? && CacheOk(y, repo.repo, old(entry)) ==>
        FreshScan(y, if r.value.fromCache then HeadTree(repo.repo) else repo.repo.work, maxBytes, r.value)
      ensures r.Ok? && CacheOk(y, repo.repo, old(entry)) ==>
        (CacheOk(y, repo.repo, entry) <==>
           r.value.fromCache || Counter(y, repo.repo.work) == Counter(y, HeadTree(repo.repo)))
    {
      hide RankingOf, Fits, IdsAscend, Counter, CacheOk;
      var head :- repo.HeadSha();
      if entry.Some? && entry.value.head == head {
        var ranked := entry.value.ranked;
        var cut := CutToBudget(ranked, maxBytes);
        if CacheOk(y, repo.repo, entry) {
          CachedIsHeads(y, repo.repo, entry.value);
        }
        return Ok(Cut(ranked, |cut.tags|, true));
      }
      var counter := ScanTags(y, repo.repo.work);
      var ranked := Rank(counter);
      var cut := CutToBudget(ranked, maxBytes);
      entry := Some(Entry(head, ranked));
      DirtyScanPoisons(y, repo.repo, ranked);
      r := Ok(cut);
    }
  }

  lemma CachedIsHeads(y: TitleCodec, r: Repo, entry: Entry)
    requires ValidRepo(r) && CacheOk(y, r, Some(entry)) && entry.head == Last(r.chain).id
    ensures RankingOf(Counter(y, HeadTree(r)), entry.ranked)
  {
    hide RankingOf, IdsAscend, Counter;
    assert Last(r.chain) in r.chain;
  }

  lemma OneIdOneTree(r: Repo)
    requires ValidRepo(r)
    ensures forall c :: c in r.chain && c.id == Last(r.chain).id ==> c == Last(r.chain)
  {
  }

  /** A fresh scan leaves no choice either, so the cache refines it. */
  lemma FreshScanIsUnique(y: TitleCodec, work: Tree, maxBytes: int, a: Vocabulary, b: Vocabulary)
    requires FreshScan(y, work, maxBytes, a) && FreshScan(y, work, maxBytes, b)
    ensures a.(fromCache := b.fromCache) == b
  {
    hide RankingOf, Fits, Counter;
    var p :| RankingOf(Counter(y, work), p) && Fits(p, maxBytes, |a.tags|) && a == Cut(p, |a.tags|, a.fromCache);
    var q :| RankingOf(Counter(y, work), q) && Fits(q, maxBytes, |b.tags|) && b == Cut(q, |b.tags|, b.fromCache);
    RankingIsUnique(Counter(y, work), Counter(y, work), p, q);
    FitsOnce(p, maxBytes, |a.tags|, |b.tags|);
  }

  // ----- the cache over the life of a repository --------------------------------------

  datatype RepoOp =
    | CommitOp(origin: Option<Origin>) | AmendOp | FetchOp(trees: seq<Tree>)
    | ChangeOp(staged: Tree, work: Tree) | RollbackOp

  function Apply(r: Repo, op: RepoOp): Repo
    requires ValidRepo(r)
  {
    match op
    case CommitOp(origin) => if Committed(r, origin).Ok? then Committed(r, origin).value else r
    case AmendOp => if Amended(r).Ok? then Amended(r).value else r
    case FetchOp(trees) => FastForwarded(r, trees)
    case ChangeOp(staged, work) => r.(staged := staged, work := work)
    case RollbackOp => CleanUntracked(ResetHard(r))
  }

  /** `s` has only commits of `r` and ones minted since. */
  predicate Mints(r: Repo, s: Repo) {
    r.minted <= s.minted && forall c :: c in s.chain ==> c in r.chain || c.id >= r.minted
  }

  lemma {:induction false} FetchMints(r: Repo, trees: seq<Tree>)
    requires ValidRepo(r)
    ensures Mints(r, FastForwarded(r, trees))
  {
    if trees == [] {
    } else {
      FetchMints(r, Init(trees));
    }
  }

  lemma ApplyMints(r: Repo, op: RepoOp)
    requires ValidRepo(r)
    ensures ValidRepo(Apply(r, op)) && Mints(r, Apply(r, op))
  {
    match op
    case FetchOp(trees) => FetchMints(r, trees);
    case AmendOp =>
    case _ =>
  }

  lemma OpKeepsRight(y: TitleCodec, r: Repo, entry: Option<Entry>, op: RepoOp)
    requires ValidRepo(r) && CacheOk(y, r, entry)
    ensures ValidRepo(Apply(r, op)) && CacheOk(y, Apply(r, op), entry)
  {
    hide Apply, RankingOf, IdsAscend, Counter;
    ApplyMints(r, op);
  }

  /** Commits, amends, pulls, edits and rollbacks never make a cache entry wrong: HEAD only
    * returns to an id with the tree it had. */
  lemma {:induction false} CacheStaysRight(y: TitleCodec, r: Repo, entry: Option<Entry>, ops: seq<RepoOp>)
    requires ValidRepo(r) && CacheOk(y, r, entry)
    ensures ValidRepo(AfterOps(r, ops)) && CacheOk(y, AfterOps(r, ops), entry)
  {
    hide Apply, CacheOk, IdsAscend;
    if ops == [] {
    } else {
      CacheStaysRight(y, r, entry, Init(ops));
      OpKeepsRight(y, AfterOps(r, Init(ops)), entry, Last(ops));
    }
  }

  function AfterOps(r: Repo, ops: seq<RepoOp>): (s: Repo)
    requires ValidRepo(r)
    ensures ValidRepo(s)
  {
    if ops == [] then r
    else
      var before := AfterOps(r, Init(ops));
      ApplyMints(before, Last(ops));
      Apply(before, Last(ops))
  }

  /** Scanning an unclean tree poisons the cache exactly when its tags are not HEAD's. */
  lemma DirtyScanPoisons(y: TitleCodec, r: Repo, ranked: seq<TagCount>)
    requires ValidRepo(r) && RankingOf(Counter(y, r.work), ranked)
    ensures CacheOk(y, r, Some(Entry(Last(r.chain).id, ranked))) <==> Counter(y, r.work) == Counter(y, HeadTree(r))
  {
    hide RankingOf, IdsAscend, Counter;
    var c := Last(r.chain);
    assert c in r.chain;
    OneIdOneTree(r);
    if RankingOf(Counter(y, c.tree), ranked) {
      RankingIsUnique(Counter(y, r.work), Counter(y, c.tree), ranked, ranked);
    }
  }

  // ----- operations and answers in any order ------------------------------------------

  datatype CacheEvent = Changed(op: RepoOp) | Asked(maxBytes: int, answer: Vocabulary, entry: Option<Entry>)

  function RepoAfter(r: Repo, events: seq<CacheEvent>): (s: Repo)
    requires ValidRepo(r)
    ensures ValidRepo(s)
  {
    if events == [] then r
    else
      var before := RepoAfter(r, Init(events));
      match Last(events)
      case Asked(_, _, _) => before
      case Changed(op) => ApplyMints(before, op); Apply(before, op)
  }

  function EntryAfter(entry: Option<Entry>, events: seq<CacheEvent>): Option<Entry> {
    if events == [] then entry
    else match Last(events)
      case Asked(_, _, after) => after
      case Changed(_) => EntryAfter(entry, Init(events))
  }

  /** Every answer is one that `Derive` can give where it is asked. */
  ghost predicate IsHistory(y: TitleCodec, r: Repo, entry: Option<Entry>, events: seq<CacheEvent>)
    requires ValidRepo(r)
  {
    events == []
    || (IsHistory(y, r, entry, Init(events))
        && match Last(events)
           case Changed(_) => true
           case Asked(maxBytes, v, after) =>
             Answers(y, RepoAfter(r, Init(events)), maxBytes, EntryAfter(entry, Init(events)), v, after))
  }

  /** No answer was scanned from a work tree whose tags are not HEAD's. */
  ghost predicate ScansAgree(y: TitleCodec, r: Repo, events: seq<CacheEvent>)
    requires ValidRepo(r)
  {
    events == []
    || (ScansAgree(y, r, Init(events))
        && (Last(events).Asked? && !Last(events).answer.fromCache ==>
              var s := RepoAfter(r, Init(events)); Counter(y, s.work) == Counter(y, HeadTree(s))))
  }

  /** The entry is right after each of the events. */
  ghost predicate RightThroughout(y: TitleCodec, r: Repo, entry: Option<Entry>, events: seq<CacheEvent>)
    requires ValidRepo(r)
  {
    CacheOk(y, RepoAfter(r, events), EntryAfter(entry, events))
    && (events != [] ==> RightThroughout(y, r, entry, Init(events)))
  }

  lemma AnswerKeepsRight(y: TitleCodec, r: Repo, maxBytes: int, before: Option<Entry>, v: Vocabulary,
                         after: Option<Entry>)
    requires ValidRepo(r) && CacheOk(y, r, before) && Answers(y, r, maxBytes, before, v, after)
    ensures CacheOk(y, r, after) <==> v.fromCache || Counter(y, r.work) == Counter(y, HeadTree(r))
    ensures FreshScan(y, if v.fromCache then HeadTree(r) else r.work, maxBytes, v)
  {
    hide RankingOf, Fits, IdsAscend, Counter, CacheOk;
    if v.fromCache {
      CachedIsHeads(y, r, after.value);
    } else {
      assert after == Some(Entry(Last(r.chain).id, after.value.ranked));
      DirtyScanPoisons(y, r, after.value.ranked);
    }
  }

  /** Over any history of repository operations and answers the cache is right throughout if
    * and only if no answer was scanned from a work tree whose tags are not HEAD's. */
  lemma {:induction false} CacheIsRightExactly(y: TitleCodec, r: Repo, entry: Option<Entry>, events: seq<CacheEvent>)
    requires ValidRepo(r) && CacheOk(y, r, entry) && IsHistory(y, r, entry, events)
    ensures RightThroughout(y, r, entry, events) <==> ScansAgree(y, r, events)
  {
    hide CacheOk, Answers, Counter, Apply, IdsAscend;
    if events == [] {
    } else {
      CacheIsRightExactly(y, r, entry, Init(events));
      var s, e := RepoAfter(r, Init(events)), EntryAfter(entry, Init(events));
      if RightThroughout(y, r, entry, Init(events)) {
        match Last(events)
        case Changed(op) => OpKeepsRight(y, s, e, op);
        case Asked(maxBytes, v, after) => AnswerKeepsRight(y, s, maxBytes, e, v, after);
      }
    }
  }

  /** ... and then every answer on a clean tree is that of a fresh scan, cached or not. */
  lemma CleanAnswersAreFresh(y: TitleCodec, r: Repo, entry: Option<Entry>, events: seq<CacheEvent>)
    requires ValidRepo(r) && CacheOk(y, r, entry) && IsHistory(y, r, entry, events)
    requires events != [] && Last(events).Asked? && ScansAgree(y, r, Init(events))
    requires IsClean(RepoAfter(r, Init(events)))
    ensures FreshScan(y, RepoAfter(r, Init(events)).work, Last(events).maxBytes, Last(events).answer)
  {
    hide CacheOk, Answers, Counter, Apply, IdsAscend, FreshScan, ScansAgree;
    CacheIsRightExactly(y, r, entry, Init(events));
    var s, e := RepoAfter(r, Init(events)), EntryAfter(entry, Init(events));
    AnswerKeepsRight(y, s, Last(events).maxBytes, e, Last(events).answer, Last(events).entry);
  }
}
