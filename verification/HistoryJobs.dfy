/** One commit per job id, over whole histories: what the record's state guarantees, and the
  * one way around it. */
module HistoryJobs {
  import opened Prelude
  import opened Job
  import opened Git
  import opened Ingest
  import opened IngestSafety
  import opened IngestTheorems
  import opened Histories
  import JobStore

  predicate Made(c: Commit, id: string) { c.origin.Some? && c.origin.value.job == id }

  predicate HasCommit(chain: seq<Commit>, id: string) {
    exists i :: 0 <= i < |chain| && Made(chain[i], id)
  }

  /** No job id made two commits. */
  predicate OnePerJob(chain: seq<Commit>) {
    forall i, j :: 0 <= i < j < |chain| && chain[i].origin.Some? ==> !Made(chain[j], chain[i].origin.value.job)
  }

  /** The job is not marked running by this run. */
  predicate Unbegun(pc: Pc) { pc.Load? || pc.MarkRunning? || (pc.Done? && pc.ending.Unstarted?) }

  /** A running job's own commit can only be the one above its base. */
  predicate OwnAbove(q: Request, l: Local, chain: seq<Commit>) {
    forall i :: 0 <= i < |chain| && Made(chain[i], q.job) ==> Unbegun(l.pc) || (l.checked && i >= |l.base|)
  }

  predicate NotQueued(records: JobStore.Records, id: string) { id in records ==> records[id].state != Queued }

  /** A job that made a commit is past QUEUED, as far as its record is still there. */
  predicate CommittersRan(chain: seq<Commit>, records: JobStore.Records) {
    forall i :: 0 <= i < |chain| && chain[i].origin.Some? ==> NotQueued(records, chain[i].origin.value.job)
  }

  /** The part of the invariant about the run of `q`. */
  ghost predicate RunOk(q: Request, r: Run) {
    OwnAbove(q, r.l, r.repo.chain) && (r.l.pc.Load? && HasCommit(r.repo.chain, q.job) ==> q.job in r.records)
  }

  ghost predicate JobsOk(w: World, v: string)
    requires v in w.vaults
  {
    var s := w.vaults[v];
    && OnePerJob(s.repo.chain) && CommittersRan(s.repo.chain, w.records)
    && (s.active.Some? ==> RunOk(s.active.value.q, RunOf(w, v)))
  }

  ghost predicate OneInv(w: World) { forall v :: v in w.vaults ==> JobsOk(w, v) }

  // ----- one step -------------------------------------------------------------------

  lemma UnbegunIsUnchecked(q: Request, r: Run)
    requires Inv(q, r) && Unbegun(r.l.pc)
    ensures !r.l.checked
    ensures r.l.pc.MarkRunning? ==> q.job in r.records && r.records[q.job] == r.l.job
  {
    hide FinalTree, Gate, IndexOn, IdsAscend, KeyedById;
  }

  lemma BegunIsNotQueued(q: Request, r: Run)
    requires Inv(q, r) && !Unbegun(r.l.pc)
    ensures q.job in r.records && r.records[q.job].state != Queued
  {
    hide FinalTree, Gate, IndexOn, IdsAscend, KeyedById, DraftTree;
  }

  /** What the first two stages can do. */
  lemma BeginningSteps(q: Request, r: Run, e: Event)
    requires ValidRepo(r.repo) && Unbegun(r.l.pc)
    ensures var s := Step(q, r, e);
      && s.repo == r.repo
      && (s.l.pc.Load? ==> s == r)
      && (r.l.pc.Load? ==> Unbegun(s.l.pc))
      && (r.l.pc.Load? && q.job in r.records ==> s.records == r.records)
      && (r.l.pc.MarkRunning? && !Unbegun(s.l.pc) ==> r.l.job.state == Queued)
      && (!r.l.pc.Load? && Unbegun(s.l.pc) ==> s.records == r.records)
      && (r.l.pc.Done? ==> s == r)
  {
    hide IdsAscend;
  }

  lemma {:induction false} NoneBelow(q: Request, l: Local, chain: seq<Commit>)
    requires OwnAbove(q, l, chain) && !Unbegun(l.pc) && (l.checked ==> chain == l.base)
    ensures !HasCommit(chain, q.job)
  {
  }

  lemma SameOriginsKeep(a: seq<Commit>, b: seq<Commit>, id: string)
    requires SameOrigins(a, b)
    ensures OnePerJob(a) ==> OnePerJob(b)
    ensures HasCommit(a, id) <==> HasCommit(b, id)
  {
    if HasCommit(a, id) {
      var i :| 0 <= i < |a| && Made(a[i], id);
      assert Made(b[i], id);
    }
    if HasCommit(b, id) {
      var i :| 0 <= i < |b| && Made(b[i], id);
      assert Made(a[i], id);
    }
  }

  /** A step after the beginning keeps one commit per job. */
  lemma MoveKeepsOne(q: Request, r: Run, s: Run)
    requires Moved(q, r, s) && OnePerJob(r.repo.chain) && OwnAbove(q, r.l, r.repo.chain)
    requires !Unbegun(r.l.pc)
    ensures OnePerJob(s.repo.chain) && OwnAbove(q, s.l, s.repo.chain)
  {
    var a, b := r.repo.chain, s.repo.chain;
    if Stayed(r, s) {
      SameOriginsKeep(a, b, q.job);
    } else if PassedCheck(r, s) {
      NoneBelow(q, r.l, a);
    } else {
      assert r.l.checked;
      NoneBelow(q, r.l, a);
      assert forall i :: 0 <= i < |a| ==> b[i] == a[i];
      if MadeCommit(q, r, s) {
        assert b[|a|] == Last(b);
      }
    }
  }

  lemma StepKeepsRunOk(q: Request, r: Run, e: Event)
    requires Inv(q, r) && OnePerJob(r.repo.chain) && RunOk(q, r)
    requires HasCommit(r.repo.chain, q.job) ==> NotQueued(r.records, q.job)
    ensures var s := Step(q, r, e);
      OnePerJob(s.repo.chain) && RunOk(q, s) && (HasCommit(s.repo.chain, q.job) ==> NotQueued(s.records, q.job))
  {
    hide Inv, Step, Moved, OnePerJob, OwnAbove, HasCommit, IdsAscend, Unbegun;
    ValidOfInv(q, r);
    StepKeepsInv(q, r, e);
    var s := Step(q, r, e);
    if Unbegun(r.l.pc) {
      BeginningSteps(q, r, e);
      UnbegunIsUnchecked(q, r);
      UnbegunOwnAbove(q, s.l, s.repo.chain);
      UnbegunCases(r.l.pc);
      if !Unbegun(s.l.pc) {
        assert !HasCommit(r.repo.chain, q.job);
        BegunIsNotQueued(q, s);
      }
    } else {
      StepMoves(q, r, e);
      MoveKeepsOne(q, r, s);
      LateStays(q, r, e);
      BegunIsNotQueued(q, s);
    }
  }

  lemma UnbegunCases(pc: Pc)
    requires Unbegun(pc)
    ensures pc.Load? || pc.MarkRunning? || pc.Done?
  {
  }

  lemma UnbegunOwnAbove(q: Request, l: Local, chain: seq<Commit>)
    ensures Unbegun(l.pc) || !HasCommit(chain, q.job) ==> OwnAbove(q, l, chain)
  {
  }

  /** A run that has begun does not go back. */
  lemma LateStays(q: Request, r: Run, e: Event)
    requires Inv(q, r) && !Unbegun(r.l.pc)
    ensures !Unbegun(Step(q, r, e).l.pc)
  {
    ValidOfInv(q, r);
    hide Inv, Advance, Throw, Disturbed, IdsAscend, Gate;
    if e.Go? {
      AdvanceStaysBegun(q, r);
    } else if e.Raise? {
      DisturbedKeeps(r, e.staged, e.work);
      ThrowStaysBegun(Disturbed(r, e.staged, e.work), e.exn);
    }
  }

  lemma ThrowStaysBegun(r: Run, exn: Exn)
    requires !Unbegun(r.l.pc)
    ensures !Unbegun(Throw(r, exn).l.pc)
  {
  }

  lemma AdvanceStaysBegun(q: Request, r: Run)
    requires Inv(q, r) && !Unbegun(r.l.pc)
    ensures !Unbegun(Advance(q, r).l.pc)
  {
    hide Inv, Advance, Unbegun;
    ValidOfInv(q, r);
    if r.l.checked {
      AdvanceKeepsInv(q, r);
      CheckedStays(q, r);
      if Unbegun(Advance(q, r).l.pc) {
        UnbegunIsUnchecked(q, Advance(q, r));
      }
    } else {
      UncheckedStages(q, r);
      UncheckedGoesOn(q, r);
    }
  }

  lemma CheckedStays(q: Request, r: Run)
    requires Inv(q, r) && r.l.checked
    ensures Advance(q, r).l.checked
  {
    InvJobId(q, r);
    hide Inv, Advance;
    AdvanceKeepsBase(q, r);
  }

  lemma UncheckedStages(q: Request, r: Run)
    requires Inv(q, r) && !r.l.checked && !Unbegun(r.l.pc)
    ensures r.l.pc.CleanTree? || r.l.pc.Reset? || r.l.pc.Clean? || r.l.pc.FailUpdate? || r.l.pc.Done?
  {
    hide FinalTree, Gate, IndexOn, IdsAscend, KeyedById, DraftTree;
  }

  lemma UncheckedGoesOn(q: Request, r: Run)
    requires ValidRepo(r.repo) && !Unbegun(r.l.pc)
    requires r.l.pc.CleanTree? || r.l.pc.Reset? || r.l.pc.Clean? || r.l.pc.FailUpdate? || r.l.pc.Done?
    ensures !Unbegun(Advance(q, r).l.pc)
  {
    hide Advance;
    if r.l.pc.CleanTree? {
      CheckGoesOn(q, r);
    } else {
      UnwindingStaysBegun(q, r);
    }
  }

  lemma CheckGoesOn(q: Request, r: Run)
    requires ValidRepo(r.repo) && r.l.pc.CleanTree?
    ensures !Unbegun(Advance(q, r).l.pc)
  {
    hide IdsAscend, IsClean, StepLoad, StepMarkRunning, StepDedup, StepDedupFinish, StepWriteNote, StepCommit,
      StepSetManifest,
      StepAmend, StepFinish, StepClean, StepFailUpdate;
  }

  lemma UnwindingStaysBegun(q: Request, r: Run)
    requires ValidRepo(r.repo) && !Unbegun(r.l.pc) && Unwinding(r.l.pc)
    ensures !Unbegun(Advance(q, r).l.pc)
  {
    hide IdsAscend, IsClean, FailedWith, ResetHard, CleanUntracked;
  }

  // ----- one event of a history ---------------------------------------------------------

  /** An event that makes a record, or starts a run that will, for a job that has a commit and
    * whose record is gone. */
  ghost predicate Recreates(w: World, e: WorldEvent) {
    || (e.Submit? && e.id !in w.records && exists v :: v in w.vaults && HasCommit(w.vaults[v].repo.chain, e.id))
    || (e.Begin? && MayBegin(w, e.q) && e.q.job !in w.records && HasCommit(w.vaults[e.q.vault].repo.chain, e.q.job))
  }

  /** No job id is used again after the sweep of its record. */
  ghost predicate NoRecreation(w: World, events: seq<WorldEvent>) {
    events == [] || (NoRecreation(w, Init(events)) && !Recreates(Later(w, Init(events)), Last(events)))
  }

  lemma ForeignKeepsOne(a: seq<Commit>, b: seq<Commit>, records: JobStore.Records, later: JobStore.Records)
    requires OnlyForeign(a, b) && OnePerJob(a) && CommittersRan(a, records)
    requires forall id :: HasCommit(a, id) && NotQueued(records, id) ==> NotQueued(later, id)
    ensures OnePerJob(b) && CommittersRan(b, later)
  {
    assert forall i :: 0 <= i < |a| ==> b[i] == a[i];
    forall i | 0 <= i < |b| && b[i].origin.Some?
      ensures NotQueued(later, b[i].origin.value.job)
    {
      assert Made(a[i], b[i].origin.value.job);
    }
  }

  /** Events that change no run: what they do to records leaves committed jobs past QUEUED. */
  lemma QuietKeepsOne(w: World, t: World)
    requires OneInv(w) && t.vaults.Keys == w.vaults.Keys
    requires forall v :: v in w.vaults ==> OnlyForeign(w.vaults[v].repo.chain, t.vaults[v].repo.chain)
    requires forall v, id :: v in w.vaults && HasCommit(w.vaults[v].repo.chain, id) && NotQueued(w.records, id) ==>
      NotQueued(t.records, id)
    requires forall v :: v in w.vaults && t.vaults[v].active.Some? ==>
      t.vaults[v] == w.vaults[v] && RecordKept(w, t, w.vaults[v].active.value.q.job)
    ensures OneInv(t)
  {
    hide OnlyForeign, OnePerJob, CommittersRan, OwnAbove, HasCommit, NotQueued;
    forall v | v in t.vaults
      ensures JobsOk(t, v)
    {
      assert JobsOk(w, v);
      ForeignKeepsOne(w.vaults[v].repo.chain, t.vaults[v].repo.chain, w.records, t.records);
    }
  }

  lemma ProgressKeepsOne(w: World, v: string, e: Event)
    requires WorldInv(w) && OneInv(w) && v in w.vaults && w.vaults[v].active.Some?
    ensures OneInv(Next(w, Progress(v, e)))
  {
    hide Inv, Step, OnePerJob, CommittersRan, HasCommit, RunOk, IdsAscend, IndexOn, KeyedById,
      CommitsAreOwned, Moved, SameOthers, IndexGrows;
    var q := w.vaults[v].active.value.q;
    var r := RunOf(w, v);
    var s := Step(q, r, e);
    var t := Next(w, Progress(v, e));
    assert VaultInv(w, v) && JobsOk(w, v);
    OwnCommitter(r.repo.chain, r.records, q.job);
    StepKeepsRunOk(q, r, e);
    StepMoves(q, r, e);
    MoveKeepsCommitters(q, r, s);
    assert t.vaults[v] == VaultState(s.repo, s.index, Some(Active(q, s.l))) && RunOf(t, v) == s;
    forall u | u in t.vaults
      ensures JobsOk(t, u)
    {
      if u != v {
        assert JobsOk(w, u) && VaultInv(w, u);
        OthersKeepOne(w, t, u, q, r, s);
      }
    }
  }

  lemma OwnCommitter(chain: seq<Commit>, records: JobStore.Records, id: string)
    requires CommittersRan(chain, records)
    ensures HasCommit(chain, id) ==> NotQueued(records, id)
  {
  }

  lemma MoveKeepsCommitters(q: Request, r: Run, s: Run)
    requires Moved(q, r, s) && SameOthers(q, r, s) && CommittersRan(r.repo.chain, r.records)
    requires HasCommit(s.repo.chain, q.job) ==> NotQueued(s.records, q.job)
    ensures CommittersRan(s.repo.chain, s.records)
  {
    var a, b := r.repo.chain, s.repo.chain;
    forall i | 0 <= i < |b| && b[i].origin.Some?
      ensures NotQueued(s.records, b[i].origin.value.job)
    {
      assert Made(b[i], b[i].origin.value.job);
      if b[i].origin.value.job != q.job {
        assert i < |a| && a[i].origin == b[i].origin;
      }
    }
  }

  /** Another vault: its commits and its run are of other jobs. */
  lemma OthersKeepOne(w: World, t: World, u: string, q: Request, r: Run, s: Run)
    requires u in w.vaults && u in t.vaults && t.vaults[u] == w.vaults[u] && JobsOk(w, u) && VaultInv(w, u)
    requires q.job in w.used && w.used[q.job] != u
    requires SameOthers(q, r, s) && r.records == w.records && s.records == t.records
    ensures JobsOk(t, u)
  {
    hide Inv, OnePerJob, OwnAbove, IdsAscend, IndexOn, HasCommit;
    var chain := w.vaults[u].repo.chain;
    forall i | 0 <= i < |chain| && chain[i].origin.Some?
      ensures NotQueued(t.records, chain[i].origin.value.job)
    {
      assert NotQueued(w.records, chain[i].origin.value.job);
    }
  }

  lemma BeginKeepsOne(w: World, q: Request)
    requires OneInv(w) && MayBegin(w, q) && !Recreates(w, Begin(q))
    ensures OneInv(Next(w, Begin(q)))
  {
    hide OnePerJob, CommittersRan, HasCommit;
    var t := Next(w, Begin(q));
    forall u | u in t.vaults
      ensures JobsOk(t, u)
    {
      assert JobsOk(w, u);
      if u == q.vault {
        UnbegunOwnAbove(q, Fresh(q), w.vaults[u].repo.chain);
      }
      hide OwnAbove;
    }
  }

  lemma SettingKeepsOne(w: World, e: WorldEvent)
    requires OneInv(w) && (e.Submit? || e.GiveUp?) && !Recreates(w, e)
    ensures OneInv(Next(w, e))
  {
    hide OneInv, OnePerJob, CommittersRan, OwnAbove, HasCommit, OnlyForeign, FailedWith;
    var t := Next(w, e);
    forall v | v in w.vaults
      ensures OnlyForeign(w.vaults[v].repo.chain, t.vaults[v].repo.chain)
    {
      OnlyForeignSame(w.vaults[v].repo.chain);
    }
    QuietKeepsOne(w, t);
  }

  lemma QuietEventKeepsOne(w: World, e: WorldEvent)
    requires WorldInv(w) && OneInv(w) && Quiet(e)
    ensures OneInv(Next(w, e))
  {
    hide Next, WorldInv, OneInv, IdsAscend, KeyedById, OnlyForeign, HasCommit;
    WorldInvIsValid(w);
    QuietRecords(w, e);
    var t := Next(w, e);
    forall v | v in w.vaults
      ensures OnlyForeign(w.vaults[v].repo.chain, t.vaults[v].repo.chain)
      ensures t.vaults[v].active.Some? ==>
        t.vaults[v] == w.vaults[v] && RecordKept(w, t, w.vaults[v].active.value.q.job)
    {
      QuietVault(w, e, v);
      if t.vaults[v].active.Some? {
        QuietActive(w, e, v);
      }
    }
    QuietNotQueued(w, e);
    QuietKeepsOne(w, t);
  }

  lemma QuietNotQueued(w: World, e: WorldEvent)
    requires Quiet(e)
    ensures forall id :: NotQueued(w.records, id) ==> NotQueued(Next(w, e).records, id)
  {
    hide RestartOk, CrashedVault, FastForwarded, IdsAscend;
  }

  lemma NextKeepsOne(w: World, e: WorldEvent)
    requires WorldInv(w) && OneInv(w) && !Recreates(w, e)
    ensures OneInv(Next(w, e))
  {
    hide WorldInv, OneInv, Step, RestartOk, IdsAscend, Recreates;
    match e
    case Begin(q) =>
      if MayBegin(w, q) {
        BeginKeepsOne(w, q);
      }
    case Progress(v, event) =>
      if v in w.vaults && w.vaults[v].active.Some? {
        ProgressKeepsOne(w, v, event);
      }
    case Submit(_, _) => SettingKeepsOne(w, e);
    case GiveUp(_, _, _) => SettingKeepsOne(w, e);
    case _ => QuietEventKeepsOne(w, e);
  }

  lemma FirstStartOne(w: World)
    requires FirstStart(w)
    ensures OneInv(w)
  {
  }

  lemma {:induction false} AfterKeepsOne(w: World, events: seq<WorldEvent>)
    requires WorldInv(w) && OneInv(w) && NoRecreation(w, events)
    ensures OneInv(Later(w, events))
  {
    hide WorldInv, OneInv, Next, Recreates;
    if events == [] {
    } else {
      AfterKeepsOne(w, Init(events));
      AfterKeepsInv(w, Init(events));
      NextKeepsOne(Later(w, Init(events)), Last(events));
    }
  }

  /** Over any history, second runs of a job included, no job id makes two commits, as long as
    * none is used again after its record was swept: the record's state refuses the rest. */
  lemma OneCommitPerJob(w: World, events: seq<WorldEvent>)
    requires FirstStart(w) && NoRecreation(w, events)
    ensures forall v :: v in Later(w, events).vaults ==> OnePerJob(Later(w, events).vaults[v].repo.chain)
  {
    FirstStartInv(w);
    FirstStartOne(w);
    AfterKeepsOne(w, events);
    hide FirstStart, Later, OnePerJob, CommittersRan;
    forall v | v in Later(w, events).vaults
      ensures OnePerJob(Later(w, events).vaults[v].repo.chain)
    {
      assert JobsOk(Later(w, events), v);
    }
  }
}
