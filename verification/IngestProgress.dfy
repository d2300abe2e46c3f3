/** The converse of safety: an ingest in which nothing raises succeeds. */
module IngestProgress {
  import opened Prelude
  import opened Job
  import opened Git
  import opened Frontmatter
  import opened Ingest
  import opened IngestSafety
  import opened IngestTheorems
  import opened Contents
  import JobStore

  /** The stages from the first write to the last record. */
  predicate Writes(pc: Pc) {
    || pc.WriteText? || pc.WriteManifest? || pc.WriteNote? || pc.Stage? || pc.CommitNotes? || pc.ReadHead?
    || pc.SetManifest? || pc.Restage? || pc.AmendHead? || pc.ReadAmended? || pc.PutIndex? || pc.PushHead? || pc.Finish?
  }

  /** How many steps are left at most. */
  function Rank(pc: Pc, batch: seq<Draft>): nat {
    match pc
    case WriteText => |batch| + 13
    case WriteManifest => |batch| + 12
    case WriteNote(i) => if i < |batch| then |batch| - i + 11 else 11
    case Stage => 11
    case CommitNotes => 10
    case ReadHead => 9
    case SetManifest => 8
    case Restage => 7
    case AmendHead => 6
    case ReadAmended => 5
    case PutIndex => 4
    case PushHead => 3
    case Finish(_) => 2
    case _ => 0
  }

  /** Every note of the batch can be merged, the batch changes something, and what may be
    * filed as the text's manifest is one. */
  ghost predicate Writable(q: Request, base: Tree, batch: seq<Draft>) {
    && DraftTree(q, base, batch).Ok? && DraftTree(q, base, batch).value != base
    && (q.archive && ArchiveManifest(q.sha) in base ==> base[ArchiveManifest(q.sha)].Manifest?)
  }

  /** ... for the batch and the base of a run. */
  ghost predicate CanWrite(q: Request, r: Run) {
    |r.l.base| > 0 && Writable(q, BaseTree(r), r.l.batch)
  }

  predicate EndsWell(pc: Pc) {
    pc.Done? && pc.ending.Returned? && pc.ending.record.state == Succeeded
  }

  ghost predicate GoesOn(q: Request, r: Run, s: Run) {
    EndsWell(s.l.pc) || (Writes(s.l.pc) && Rank(s.l.pc, s.l.batch) < Rank(r.l.pc, r.l.batch))
  }

  lemma {:induction false} PrefixIsWritten(q: Request, t: Tree, batch: seq<Draft>, k: nat)
    requires WithNotes(q, t, batch).Ok? && k <= |batch|
    ensures WithNotes(q, t, batch[..k]).Ok?
    ensures k < |batch| ==> WithNote(q, WithNotes(q, t, batch[..k]).value, batch[k].note).Ok?
  {
    hide WithNote;
    if k == |batch| {
      assert batch[..k] == batch;
    } else if k == |batch| - 1 {
      assert batch[..k] == Init(batch);
    } else {
      PrefixIsWritten(q, t, Init(batch), k);
      assert Init(batch)[..k] == batch[..k] && Init(batch)[k] == batch[k];
    }
  }

  lemma WriteGoesOn(q: Request, r: Run)
    requires Inv(q, r) && CanWrite(q, r)
    requires r.l.pc.WriteText? || r.l.pc.WriteManifest? || r.l.pc.Stage? || r.l.pc.Restage?
    ensures GoesOn(q, r, Advance(q, r))
  {
    hide DraftTree, FinalTree, IndexOn, KeyedById, IdsAscend, WithText, WithManifest, WithCommitId;
  }

  lemma NoteGoesOn(q: Request, r: Run)
    requires Inv(q, r) && CanWrite(q, r) && r.l.pc.WriteNote?
    ensures GoesOn(q, r, Advance(q, r))
  {
    hide FinalTree, IndexOn, KeyedById, IdsAscend, WithNote, WithNotes, Archived;
    var i := r.l.pc.i;
    PrefixIsWritten(q, Archived(q, BaseTree(r), r.l.batch), r.l.batch, i);
  }

  lemma CommitGoesOn(q: Request, r: Run)
    requires Inv(q, r) && CanWrite(q, r)
    requires r.l.pc.CommitNotes? || r.l.pc.ReadHead? || r.l.pc.ReadAmended? || r.l.pc.PutIndex?
    ensures GoesOn(q, r, Advance(q, r))
  {
    hide DraftTree, FinalTree, IndexOn, KeyedById, IdsAscend, Gate, IndexRecord;
  }

  /** The draft tree has a manifest: the one that was filed, or a new one. */
  lemma ManifestIsThere(q: Request, base: Tree, batch: seq<Draft>)
    requires Writable(q, base, batch) && q.archive && DistinctPaths(batch)
    ensures var t := DraftTree(q, base, batch).value; var f := ArchiveManifest(q.sha);
      f in t && t[f].Manifest? && (f in base ==> t[f] == base[f])
  {
    hide DraftTree, Touched;
    CommitHoldsExactly(q, base, batch);
    hide Merged, IsTouched;
  }

  /** Recording an id in the manifest does not undo the batch. */
  lemma AmendStillChanges(q: Request, base: Tree, t: Tree, id: nat)
    requires t != base && (ArchiveManifest(q.sha) in base ==> ArchiveManifest(q.sha) in t)
    requires ArchiveManifest(q.sha) in base ==> t[ArchiveManifest(q.sha)] == base[ArchiveManifest(q.sha)]
    requires WithCommitId(q, t, id).Ok?
    ensures WithCommitId(q, t, id).value != base
  {
    var f := ArchiveManifest(q.sha);
    var u := WithCommitId(q, t, id).value;
    assert u[f] == t[f] ==> u == t;
  }

  lemma AmendGoesOn(q: Request, r: Run)
    requires Inv(q, r) && CanWrite(q, r) && (r.l.pc.SetManifest? || r.l.pc.AmendHead?)
    ensures GoesOn(q, r, Advance(q, r))
  {
    hide DraftTree, FinalTree, IndexOn, KeyedById, IdsAscend;
    ManifestIsThere(q, BaseTree(r), r.l.batch);
    if r.l.pc.AmendHead? {
      AmendStillChanges(q, BaseTree(r), HeadTree(r.repo), Last(r.repo.chain).id);
    }
    assert r.repo.chain[|r.l.base| - 1] == Last(r.l.base);
  }

  lemma FinishGoesOn(q: Request, r: Run)
    requires Inv(q, r) && (r.l.pc.PushHead? || r.l.pc.Finish?)
    ensures GoesOn(q, r, Advance(q, r))
  {
    hide FinalTree, IdsAscend, Gate, Created, Updated, IndexOn;
    if r.l.pc.Finish? {
      SettleKeepsInv(q, r, r.l.job.(commitSha := Some(r.l.commit), notesCreated := Created(r.l.batch),
        notesUpdated := Updated(r.l.batch), linkDowngrades := r.l.downgrades, error := r.l.pc.pushError), Succeeded);
    }
  }

  lemma StageGoesOn(q: Request, r: Run)
    requires Inv(q, r) && CanWrite(q, r) && Writes(r.l.pc)
    ensures var s := Advance(q, r); GoesOn(q, r, s) && Inv(q, s) && CanWrite(q, s)
  {
    AdvanceKeepsInv(q, r);
    ValidOfInv(q, r);
    AdvanceKeepsBase(q, r);
    hide Inv, Advance, Writable, GoesOn;
    if r.l.pc.WriteNote? {
      NoteGoesOn(q, r);
    } else if r.l.pc.WriteText? || r.l.pc.WriteManifest? || r.l.pc.Stage? || r.l.pc.Restage? {
      WriteGoesOn(q, r);
    } else if r.l.pc.SetManifest? || r.l.pc.AmendHead? {
      AmendGoesOn(q, r);
    } else if r.l.pc.PushHead? || r.l.pc.Finish? {
      FinishGoesOn(q, r);
    } else {
      CommitGoesOn(q, r);
    }
  }

  predicate Quiet(events: seq<Event>) {
    forall i :: 0 <= i < |events| ==> !events[i].Raise? && !events[i].StageFailed?
  }

  /** From the first write on, steps that do not raise lead to success. */
  lemma {:induction false} WritingSucceeds(q: Request, r: Run) returns (events: seq<Event>)
    requires Inv(q, r) && CanWrite(q, r) && Writes(r.l.pc)
    ensures Quiet(events) && EndsWell(Exec(q, r, events).l.pc)
    decreases Rank(r.l.pc, r.l.batch)
  {
    hide *;
    StageGoesOn(q, r);
    ValidOfInv(q, r);
    var s := Advance(q, r);
    GoesOnSays(q, r, s);
    StepGo(q, r);
    ExecOne(q, r, Go);
    if EndsWell(s.l.pc) {
      events := [Go];
      GoIsQuiet([]);
    } else {
      var more := WritingSucceeds(q, s);
      events := [Go] + more;
      GoIsQuiet(more);
      ExecConcat(q, r, [Go], more);
    }
  }

  lemma GoesOnSays(q: Request, r: Run, s: Run)
    requires GoesOn(q, r, s)
    ensures EndsWell(s.l.pc) || (Writes(s.l.pc) && Rank(s.l.pc, s.l.batch) < Rank(r.l.pc, r.l.batch))
  {
  }

  lemma GoIsQuiet(more: seq<Event>)
    ensures Quiet([Go])
    ensures Quiet(more) ==> Quiet([Go] + more)
  {
  }

  // ----- from the start -------------------------------------------------------------

  /** The tree a run drafts against: HEAD's, after the pull if there is one. */
  function BaseOf(q: Request, repo: Repo, trees: seq<Tree>): Tree
    requires ValidRepo(repo)
  {
    HeadTree(FastForwarded(repo, if q.autoPush then trees else []))
  }

  predicate MayRun(q: Request, records: JobStore.Records) {
    q.job in records ==> records[q.job].state == Queued
  }

  lemma Begins(q: Request, r: Run)
    requires Inv(q, r) && r.l.pc.Load? && MayRun(q, r.records)
    ensures var s := Step(q, r, Go);
      s.l.pc.MarkRunning? && s.l.job.state == Queued && s.repo == r.repo && s.index == r.index
  {
    hide IdsAscend, IndexOn;
  }

  lemma Marks(q: Request, r: Run)
    requires Inv(q, r) && r.l.pc.MarkRunning? && r.l.job.state == Queued
    ensures var s := Step(q, r, Go); s.l.pc.CleanTree? && s.repo == r.repo && s.index == r.index
  {
    hide IdsAscend, IndexOn;
  }

  lemma Checks(q: Request, r: Run)
    requires Inv(q, r) && r.l.pc.CleanTree? && IsClean(r.repo)
    ensures var s := Step(q, r, Go); s.l.pc.Dedup? && s.repo == r.repo && s.index == r.index
  {
    hide IdsAscend, IndexOn;
  }

  lemma LooksUp(q: Request, r: Run)
    requires Inv(q, r) && r.l.pc.Dedup? && q.sha !in r.index
    ensures var s := Step(q, r, Go);
      s.repo == r.repo && s.index == r.index && if q.autoPush then s.l.pc.PreSync? else s.l.pc.Drafting?
  {
    hide IdsAscend, IndexOn, IsClean;
  }

  /** The steps up to drafting or the pull. */
  lemma Prepares(q: Request, s0: Run)
    requires Inv(q, s0) && s0.l.pc.Load? && MayRun(q, s0.records) && IsClean(s0.repo) && q.sha !in s0.index
    ensures var r := Exec(q, s0, [Go, Go, Go, Go]);
      && Inv(q, r) && r.repo == s0.repo && r.index == s0.index
      && if q.autoPush then r.l.pc.PreSync? else r.l.pc.Drafting?
  {
    hide *;
    var a := Step(q, s0, Go);
    var b := Step(q, a, Go);
    var c := Step(q, b, Go);
    StepKeepsInv(q, s0, Go);
    Begins(q, s0);
    StepKeepsInv(q, a, Go);
    Marks(q, a);
    StepKeepsInv(q, b, Go);
    Checks(q, b);
    StepKeepsInv(q, c, Go);
    LooksUp(q, c);
    FourSteps(q, s0);
  }

  lemma FourSteps(q: Request, r: Run)
    ensures Exec(q, r, [Go, Go, Go, Go]) == Step(q, Step(q, Step(q, Step(q, r, Go), Go), Go), Go)
  {
    hide Exec, Step;
    ExecOne(q, r, Go);
    ExecSnoc(q, r, [Go], Go);
    ExecSnoc(q, r, [Go, Go], Go);
    ExecSnoc(q, r, [Go, Go, Go], Go);
    assert [Go] + [Go] == [Go, Go] && [Go, Go] + [Go] == [Go, Go, Go] && [Go, Go, Go] + [Go] == [Go, Go, Go, Go];
  }

  lemma Pulls(q: Request, r: Run, trees: seq<Tree>)
    requires Inv(q, r) && r.l.pc.PreSync?
    ensures var s := Step(q, r, Fetched(trees)); s.l.pc.Drafting? && s.repo == FastForwarded(r.repo, trees)
  {
    hide IdsAscend, IndexOn, IsClean;
  }

  /** A gated batch that can be written starts the writing stages. */
  lemma Drafts(q: Request, r: Run, batch: seq<Draft>, downgrades: map<string, seq<string>>)
    requires Inv(q, r) && r.l.pc.Drafting? && batch != []
    requires VaultReadable(q.y, r.repo.work) && Gate(q, batch, ExistingPaths(r.repo.work))
    requires Writable(q, r.repo.work, batch)
    ensures var s := Step(q, r, Drafted(batch, downgrades)); (s.l.pc.WriteText? || s.l.pc.WriteNote?) && CanWrite(q, s)
  {
    hide IdsAscend, IndexOn, VaultReadable, Gate, Writable;
  }

  /** The steps up to the first write of a gated batch. */
  lemma StartsWriting(q: Request, repo: Repo, records: JobStore.Records, index: Index, trees: seq<Tree>,
                      batch: seq<Draft>, downgrades: map<string, seq<string>>) returns (events: seq<Event>)
    requires Startable(q, repo, records, index) && IsClean(repo) && MayRun(q, records) && q.sha !in index
    requires var base := BaseOf(q, repo, trees);
      VaultReadable(q.y, base) && Gate(q, batch, ExistingPaths(base)) && Writable(q, base, batch)
    ensures Quiet(events)
    ensures var r := Exec(q, Start(q, repo, records, index), events);
      Inv(q, r) && CanWrite(q, r) && (r.l.pc.WriteText? || r.l.pc.WriteNote?)
  {
    var s0 := Start(q, repo, records, index);
    assert s0.l.pc.Load? && s0.repo == repo && s0.records == records && s0.index == index && batch != [];
    CleanAfterPull(q, repo, trees);
    hide *;
    StartInv(q, repo, records, index);
    Prepares(q, s0);
    events := [Go, Go, Go, Go];
    var r := Exec(q, s0, events);
    if q.autoPush {
      Pulls(q, r, trees);
      StepKeepsInv(q, r, Fetched(trees));
      ExecSnoc(q, s0, events, Fetched(trees));
      events, r := events + [Fetched(trees)], Step(q, r, Fetched(trees));
    }
    Drafts(q, r, batch, downgrades);
    StepKeepsInv(q, r, Drafted(batch, downgrades));
    ExecSnoc(q, s0, events, Drafted(batch, downgrades));
    FirstIsQuiet(events, trees, batch, downgrades);
    events := events + [Drafted(batch, downgrades)];
  }

  /** If nothing raises, a fresh text ingested into a clean vault whose notes all parse, with
    * a gated batch that changes something and can be merged, ends as a success. */
  lemma NothingRaisedMeansSuccess(q: Request, repo: Repo, records: JobStore.Records, index: Index, trees: seq<Tree>,
                                  batch: seq<Draft>, downgrades: map<string, seq<string>>) returns (events: seq<Event>)
    requires Startable(q, repo, records, index) && IsClean(repo) && MayRun(q, records) && q.sha !in index
    requires var base := BaseOf(q, repo, trees);
      VaultReadable(q.y, base) && Gate(q, batch, ExistingPaths(base)) && Writable(q, base, batch)
    ensures Quiet(events) && EndsWell(Exec(q, Start(q, repo, records, index), events).l.pc)
  {
    var s0 := Start(q, repo, records, index);
    var first := StartsWriting(q, repo, records, index, trees, batch, downgrades);
    FirstWriteWrites(Exec(q, s0, first));
    hide *;
    var more := WritingSucceeds(q, Exec(q, s0, first));
    ExecConcat(q, s0, first, more);
    events := first + more;
    BothAreQuiet(first, more);
  }

  lemma FirstWriteWrites(r: Run)
    requires r.l.pc.WriteText? || r.l.pc.WriteNote?
    ensures Writes(r.l.pc)
  {
  }

  lemma BothAreQuiet(a: seq<Event>, b: seq<Event>)
    requires Quiet(a) && Quiet(b)
    ensures Quiet(a + b)
  {
  }

  lemma CleanAfterPull(q: Request, repo: Repo, trees: seq<Tree>)
    requires ValidRepo(repo) && IsClean(repo)
    ensures FastForwarded(repo, trees).work == HeadTree(FastForwarded(repo, trees)) && FastForwarded(repo, []) == repo
    ensures repo.work == HeadTree(repo)
    ensures BaseOf(q, repo, trees) == if q.autoPush then FastForwarded(repo, trees).work else repo.work
  {
    FastForwardStaysClean(repo, trees);
  }

  lemma FirstIsQuiet(first: seq<Event>, trees: seq<Tree>, batch: seq<Draft>, downgrades: map<string, seq<string>>)
    requires first == [Go, Go, Go, Go] || first == [Go, Go, Go, Go] + [Fetched(trees)]
    ensures Quiet(first + [Drafted(batch, downgrades)])
  {
  }
}
