/** Runs, from the start, in which a promise is broken: what the exact conditions exclude
  * does happen. With them the condition under which a failure rolls back. */
module Witnesses {
  import opened Prelude
  import opened Job
  import opened Git
  import opened Frontmatter
  import opened Ingest
  import opened IngestSafety
  import opened IngestTheorems
  import opened IngestProgress
  import opened Crashes
  import opened ServiceRuns
  import Recovery
  import JobStore

  predicate EndsFailed(r: Run) {
    r.l.pc.Done? && r.l.pc.ending.Returned? && r.l.pc.ending.record.state == Failed
  }

  const Broken := Exn(Terminal, "git failed")

  // ----- the handlers, step by step -------------------------------------------------

  /** From the first step of a rollback the job fails, on a clean tree at the same HEAD. */
  lemma UnwindsToFailed(q: Request, r: Run, stage: string, message: string)
    requires Inv(q, r) && r.l.pc == Reset(ThenFail(stage, message))
    ensures var s := Exec(q, r, [Go, Go, Go]);
      EndsFailed(s) && s.repo == CleanUntracked(ResetHard(r.repo)) && s.index == r.index && SameBase(r, s)
  {
    ResetSays(q, r);
    hide Inv, Exec, Step, Advance;
    RollbackInTwo(q, r, ThenFail(stage, message));
    RunKeepsInv(q, r, [Go, Go]);
    var s := Exec(q, r, [Go, Go]);
    ExecSnoc(q, r, [Go, Go], Go);
    assert [Go, Go] + [Go] == [Go, Go, Go];
    Fails(q, s);
  }

  predicate SameBase(r: Run, s: Run) { s.l.checked == r.l.checked && s.l.base == r.l.base }

  lemma ResetSays(q: Request, r: Run)
    requires Inv(q, r) && r.l.pc.Reset?
    ensures ValidRepo(r.repo)
  {
  }

  lemma Fails(q: Request, r: Run)
    requires Inv(q, r) && r.l.pc.FailUpdate?
    ensures var s := Step(q, r, Go); EndsFailed(s) && s.repo == r.repo && s.index == r.index && SameBase(r, s)
  {
    hide IndexOn, IdsAscend;
    SettleKeepsInv(q, r, FailedWith(r.l.job, r.l.pc.stage, r.l.pc.message), Failed);
  }

  /** A terminal error at a stage the handlers guard starts the rollback. */
  lemma TerminalUnwinds(q: Request, r: Run)
    requires ValidRepo(r.repo) && (r.l.pc.CleanTree? || r.l.pc.PutIndex?)
    ensures Step(q, r, Raise(Broken, map[], map[])) == Goto(r, Reset(ThenFail(r.l.current, Broken.message)))
  {
    hide IdsAscend;
  }

  lemma FailsFrom(q: Request, s0: Run, first: seq<Event>)
    requires Inv(q, s0)
    requires var r := Exec(q, s0, first); r.l.pc.CleanTree? || r.l.pc.PutIndex?
    ensures var r := Exec(q, s0, first); var s := Exec(q, s0, first + [Raise(Broken, map[], map[]), Go, Go, Go]);
      ValidRepo(r.repo) && EndsFailed(s) && s.repo == CleanUntracked(ResetHard(r.repo))
      && s.index == r.index && SameBase(r, s)
  {
    hide *;
    var raise := Raise(Broken, map[], map[]);
    var r := Exec(q, s0, first);
    RunKeepsInv(q, s0, first);
    ValidOfInv(q, r);
    TerminalUnwinds(q, r);
    StepKeepsInv(q, r, raise);
    var t := Step(q, r, raise);
    GotoOnlyMoves(r, Reset(ThenFail(r.l.current, Broken.message)));
    UnwindsToFailed(q, t, r.l.current, Broken.message);
    SameBaseThrough(r, t, Exec(q, t, [Go, Go, Go]));
    ExecOne(q, r, raise);
    ExecConcat(q, r, [raise], [Go, Go, Go]);
    ExecConcat(q, s0, first, [raise] + [Go, Go, Go]);
    assert [raise] + [Go, Go, Go] == [raise, Go, Go, Go];
  }

  lemma GotoOnlyMoves(r: Run, pc: Pc)
    ensures var s := Goto(r, pc); s.l.pc == pc && s.repo == r.repo && s.index == r.index && SameBase(r, s)
  {
  }

  lemma SameBaseThrough(r: Run, s: Run, t: Run)
    requires SameBase(r, s) && SameBase(s, t)
    ensures SameBase(r, t)
  {
  }

  // ----- unsaved edits --------------------------------------------------------------

  /** On any dirty tree: the status command raises, and the handler discards the edits. */
  lemma StatusErrorCostsEdits(q: Request, repo: Repo)
    requires ValidRepo(repo) && !IsClean(repo)
    ensures var s0 := Start(q, repo, map[], map[]); var events := [Go, Go, Raise(Broken, map[], map[]), Go, Go, Go];
      EndsFailed(Exec(q, s0, events)) && StatusRaised(q, s0, events) && Exec(q, s0, events).repo != repo
  {
    var s0 := Start(q, repo, map[], map[]);
    var events := [Go, Go, Raise(Broken, map[], map[]), Go, Go, Go];
    assert Startable(q, repo, map[], map[]);
    StartInv(q, repo, map[], map[]);
    TwoStepsMark(q, repo);
    hide *;
    FailsFrom(q, s0, [Go, Go]);
    assert [Go, Go] + [Raise(Broken, map[], map[]), Go, Go, Go] == events;
    RollbackCleans(repo);
    StatusRaisedThere(q, s0, events);
  }

  lemma TwoStepsMark(q: Request, repo: Repo)
    requires ValidRepo(repo)
    ensures var r := Exec(q, Start(q, repo, map[], map[]), [Go, Go]); r.l.pc.CleanTree? && r.repo == repo
  {
    var s0 := Start(q, repo, map[], map[]);
    ExecOne(q, s0, Go);
    ExecSnoc(q, s0, [Go], Go);
    assert [Go] + [Go] == [Go, Go];
    hide Exec, IdsAscend, IsClean;
  }

  lemma StatusRaisedThere(q: Request, s0: Run, events: seq<Event>)
    requires |events| > 2 && events[..2] == [Go, Go] && events[2].Raise? && events[2].exn.Groundtruth()
    requires Exec(q, s0, [Go, Go]).l.pc.CleanTree?
    ensures StatusRaised(q, s0, events)
  {
    assert StatusRaisedAt(q, s0, events, 2);
  }

  // ----- after the commit -----------------------------------------------------------

  /** What lets an ingest of a fresh text succeed when nothing raises. */
  ghost predicate CanSucceed(q: Request, repo: Repo, records: JobStore.Records, index: Index,
                             trees: seq<Tree>, batch: seq<Draft>) {
    && Startable(q, repo, records, index) && IsClean(repo) && MayRun(q, records) && q.sha !in index
    && var base := BaseOf(q, repo, trees);
       VaultReadable(q.y, base) && Gate(q, batch, ExistingPaths(base)) && Writable(q, base, batch)
  }

  /** Every such ingest passes the stage between its commit and its indexing. */
  lemma ReachesIndexing(q: Request, repo: Repo, records: JobStore.Records, index: Index,
                        trees: seq<Tree>, batch: seq<Draft>)
    returns (events: seq<Event>)
    requires CanSucceed(q, repo, records, index, trees, batch)
    ensures Exec(q, Start(q, repo, records, index), events).l.pc.PutIndex?
  {
    var s0 := Start(q, repo, records, index);
    assert s0.index == index;
    var all := NothingRaisedMeansSuccess(q, repo, records, index, trees, batch, map[]);
    assert EndsWell(Exec(q, s0, all).l.pc);
    hide *;
    SuccessSays(Exec(q, s0, all).l.pc);
    SuccessIsOneCommit(q, repo, records, index, all);
    StartInv(q, repo, records, index);
    IndexedExactly(q, s0, all);
    events := IndexingPrefix(q, s0, all);
  }

  lemma SuccessSays(pc: Pc)
    requires EndsWell(pc)
    ensures pc.Done? && pc.ending.Returned? && pc.ending.record.state == Succeeded
  {
  }

  lemma IndexingPrefix(q: Request, s0: Run, all: seq<Event>) returns (events: seq<Event>)
    requires IndexingSucceeded(q, s0, all)
    ensures Exec(q, s0, events).l.pc.PutIndex?
  {
    hide Exec;
    var k :| 0 <= k < |all| && IndexedAt(q, s0, all, k);
    events := all[..k];
  }

  /** For every such ingest: indexing fails, and the job ends FAILED with its commit at HEAD
    * and its text not indexed. */
  lemma FailureKeepsCommit(q: Request, repo: Repo, records: JobStore.Records, index: Index,
                           trees: seq<Tree>, batch: seq<Draft>)
    returns (events: seq<Event>)
    requires CanSucceed(q, repo, records, index, trees, batch)
    ensures var r := Exec(q, Start(q, repo, records, index), events);
      EndsFailed(r) && Grown(r) && |r.repo.chain| > 0
      && Last(r.repo.chain).origin == Some(Origin(q.job, q.sha)) && q.sha !in r.index
  {
    hide CanSucceed, Exec, Inv, Start;
    var s0 := Start(q, repo, records, index);
    var first := ReachesIndexing(q, repo, records, index, trees, batch);
    CanStart(q, repo, records, index, trees, batch);
    RunKeepsInv(q, s0, first);
    var r := Exec(q, s0, first);
    FailsFrom(q, s0, first);
    events := first + [Raise(Broken, map[], map[]), Go, Go, Go];
    UnindexedHasLanded(q, r);
    InvGrownAtIndexing(q, r);
    RollbackCleans(r.repo);
  }

  lemma CanStart(q: Request, repo: Repo, records: JobStore.Records, index: Index, trees: seq<Tree>, batch: seq<Draft>)
    requires CanSucceed(q, repo, records, index, trees, batch)
    ensures Inv(q, Start(q, repo, records, index))
  {
    StartInv(q, repo, records, index);
  }

  lemma InvGrownAtIndexing(q: Request, r: Run)
    requires Inv(q, r) && r.l.pc.PutIndex?
    ensures Grown(r)
  {
  }

  /** ... or the process dies there, and recovery keeps the commit that no lookup will find. */
  lemma CrashKeepsCommit(q: Request, repo: Repo, records: JobStore.Records, index: Index,
                         trees: seq<Tree>, batch: seq<Draft>)
    returns (events: seq<Event>)
    requires CanSucceed(q, repo, records, index, trees, batch)
    ensures var r := Exec(q, Start(q, repo, records, index), events);
      && Inv(q, r) && ValidRepo(Crashed(r, map[], map[]))
      && var after := AfterRecovery(q, r, map[], map[]);
         |after.chain| > 0 && Last(after.chain).origin == Some(Origin(q.job, q.sha)) && q.sha !in r.index
  {
    hide CanSucceed, Exec, Inv, Start, Crashed, AfterRecovery;
    var s0 := Start(q, repo, records, index);
    events := ReachesIndexing(q, repo, records, index, trees, batch);
    CanStart(q, repo, records, index, trees, batch);
    RunKeepsInv(q, s0, events);
    CrashForgetsCommit(q, Exec(q, s0, events), map[], map[]);
  }

  // ----- a foreign exception --------------------------------------------------------

  /** For every such ingest: the first write dies with an exception that no handler is for,
    * whatever it left stays, and the job stays RUNNING. */
  lemma ForeignExceptionLeavesDirt(q: Request, repo: Repo, records: JobStore.Records, index: Index, trees: seq<Tree>,
                                   batch: seq<Draft>, exn: Exn, staged: Tree, work: Tree) returns (events: seq<Event>)
    requires CanSucceed(q, repo, records, index, trees, batch) && !exn.Groundtruth()
    ensures var r := Exec(q, Start(q, repo, records, index), events);
      && r.l.pc == Done(Escaped(exn)) && r.repo.staged == staged && r.repo.work == work
      && q.job in r.records && r.records[q.job].state == Running
  {
    var s0 := Start(q, repo, records, index);
    var first := StartsWriting(q, repo, records, index, trees, batch, map[]);
    hide *;
    CanStart(q, repo, records, index, trees, batch);
    RunKeepsInv(q, s0, first);
    WritingMutates(q, Exec(q, s0, first));
    ForeignExceptionSkipsRollback(q, Exec(q, s0, first), exn, staged, work);
    ExecSnoc(q, s0, first, Raise(exn, staged, work));
    events := first + [Raise(exn, staged, work)];
  }

  lemma WritingMutates(q: Request, r: Run)
    requires r.l.pc.WriteText? || r.l.pc.WriteNote?
    ensures Mutates(r.l.pc) && !r.l.pc.Reset? && !r.l.pc.Clean?
  {
  }

  /** The stage fails with this exception, leaving these trees, and the handlers go on. */
  ghost function AfterFailure(q: Request, r: Run, exn: Exn, staged: Tree, work: Tree): Run {
    Exec(q, r, [Raise(exn, staged, work), Go, Go])
  }

  ghost predicate LeftClean(q: Request, r: Run, exn: Exn, staged: Tree, work: Tree) {
    ValidRepo(AfterFailure(q, r, exn, staged, work).repo) && IsClean(AfterFailure(q, r, exn, staged, work).repo)
  }

  /** A failure while the tree is written or committed is rolled back, whatever the failing
    * command left, if and only if the handlers are for its exception. */
  lemma RolledBackExactly(q: Request, r: Run, exn: Exn)
    requires Inv(q, r) && Mutates(r.l.pc) && !r.l.pc.Reset? && !r.l.pc.Clean?
    ensures (forall staged, work :: LeftClean(q, r, exn, staged, work)) <==> exn.Groundtruth()
  {
    hide Inv, Mutates, LeftClean;
    if exn.Groundtruth() {
      forall staged, work
        ensures LeftClean(q, r, exn, staged, work)
      {
        HandledIsClean(q, r, exn, staged, work);
      }
    } else {
      var work: Tree := map[OtherFile("x") := Text("")];
      var staged: Tree := map[];
      assert OtherFile("x") in work && OtherFile("x") !in staged;
      ForeignStaysDirty(q, r, exn, staged, work);
      assert !LeftClean(q, r, exn, staged, work);
    }
  }

  lemma HandledIsClean(q: Request, r: Run, exn: Exn, staged: Tree, work: Tree)
    requires Inv(q, r) && Mutates(r.l.pc) && !r.l.pc.Reset? && !r.l.pc.Clean? && exn.Groundtruth()
    ensures LeftClean(q, r, exn, staged, work)
  {
    ValidOfInv(q, r);
    var raise := Raise(exn, staged, work);
    HandledResets(q, r, exn, staged, work);
    hide *;
    var s := Step(q, r, raise);
    RollbackInTwo(q, s, s.l.pc.after);
    RollbackCleans(s.repo);
    ExecOne(q, r, raise);
    ExecConcat(q, r, [raise], [Go, Go]);
    assert [raise] + [Go, Go] == [raise, Go, Go];
    LeftCleanIs(q, r, exn, staged, work);
  }

  lemma HandledResets(q: Request, r: Run, exn: Exn, staged: Tree, work: Tree)
    requires ValidRepo(r.repo) && Mutates(r.l.pc) && !r.l.pc.Reset? && !r.l.pc.Clean? && exn.Groundtruth()
    ensures var s := Step(q, r, Raise(exn, staged, work)); ValidRepo(s.repo) && s.l.pc.Reset?
  {
    DisturbedKeeps(r, staged, work);
    hide IdsAscend, Advance;
  }

  lemma LeftCleanIs(q: Request, r: Run, exn: Exn, staged: Tree, work: Tree)
    ensures AfterFailure(q, r, exn, staged, work) == Exec(q, r, [Raise(exn, staged, work), Go, Go])
    ensures var s := AfterFailure(q, r, exn, staged, work);
      LeftClean(q, r, exn, staged, work) <==> ValidRepo(s.repo) && IsClean(s.repo)
  {
    hide Exec, IsClean, ValidRepo;
  }

  lemma ForeignStaysDirty(q: Request, r: Run, exn: Exn, staged: Tree, work: Tree)
    requires Inv(q, r) && Mutates(r.l.pc) && !r.l.pc.Reset? && !r.l.pc.Clean? && !exn.Groundtruth()
    requires staged != work
    ensures !LeftClean(q, r, exn, staged, work)
  {
    var raise := Raise(exn, staged, work);
    hide *;
    ForeignExceptionSkipsRollback(q, r, exn, staged, work);
    var s := Step(q, r, raise);
    DoneStays(q, s, Go);
    ExecOne(q, r, raise);
    ExecSnoc(q, r, [raise], Go);
    ExecSnoc(q, r, [raise, Go], Go);
    assert [raise] + [Go] == [raise, Go] && [raise, Go] + [Go] == [raise, Go, Go];
    LeftCleanIs(q, r, exn, staged, work);
    DirtyTrees(s.repo);
  }

  lemma DirtyTrees(repo: Repo)
    requires repo.staged != repo.work
    ensures ValidRepo(repo) ==> !IsClean(repo)
  {
  }

  // ----- a transient exception ------------------------------------------------------

  predicate Retried(q: Request, r: Run, exn: Exn) {
    r.l.pc == Done(Reraised(exn)) && q.job in r.records && r.records[q.job].state == Running
  }

  /** No run of the job from here touches anything, or gets past its record. */
  ghost predicate NeverRunsAgain(q: Request, r: Run) {
    forall again :: Refused(q, r.repo, r.records, r.index, Exec(q, Start(q, r.repo, r.records, r.index), again))
  }

  /** On any clean vault and for any fresh text: a transient exception while the notes are
    * drafted, or pulled before that, is re-raised for the retry policy with the vault as it
    * was, and no later run of the job can ingest: its record is RUNNING. */
  lemma TransientFailureIsFinal(q: Request, repo: Repo, records: JobStore.Records, index: Index, exn: Exn)
    requires Startable(q, repo, records, index) && IsClean(repo) && MayRun(q, records) && q.sha !in index
    requires exn.kind == Transient
    ensures var r := Exec(q, Start(q, repo, records, index), [Go, Go, Go, Go, Raise(exn, map[], map[]), Go, Go]);
      Retried(q, r, exn) && SameHistory(repo, r.repo) && r.index == index && NeverRunsAgain(q, r)
  {
    var s0 := Start(q, repo, records, index);
    var raise := Raise(exn, map[], map[]);
    assert s0.l.pc.Load? && s0.repo == repo && s0.records == records && s0.index == index;
    hide *;
    StartInv(q, repo, records, index);
    Prepares(q, s0);
    var r := Exec(q, s0, [Go, Go, Go, Go]);
    ValidOfInv(q, r);
    RaisesTransient(q, r, exn);
    StepKeepsInv(q, r, raise);
    var t := Step(q, r, raise);
    RunningAtReset(q, r, t, exn);
    RollbackInTwo(q, t, ThenRaise(exn));
    RollbackCleans(t.repo);
    ExecOne(q, r, raise);
    ExecConcat(q, r, [raise], [Go, Go]);
    ExecConcat(q, s0, [Go, Go, Go, Go], [raise] + [Go, Go]);
    assert [Go, Go, Go, Go] + ([raise] + [Go, Go]) == [Go, Go, Go, Go, raise, Go, Go];
    EndsRetried(q, repo, t, Exec(q, t, [Go, Go]), exn);
    RunningNeverRuns(q, Exec(q, t, [Go, Go]));
  }

  lemma RaisesTransient(q: Request, r: Run, exn: Exn)
    requires ValidRepo(r.repo) && (r.l.pc.PreSync? || r.l.pc.Drafting?) && exn.kind == Transient
    ensures Step(q, r, Raise(exn, map[], map[])) == Goto(r, Reset(ThenRaise(exn)))
  {
    hide IdsAscend;
  }

  lemma RunningAtReset(q: Request, r: Run, t: Run, exn: Exn)
    requires t == Goto(r, Reset(ThenRaise(exn))) && Inv(q, t)
    ensures t.repo == r.repo && t.index == r.index && t.l.pc == Reset(ThenRaise(exn)) && ValidRepo(t.repo)
    ensures q.job in t.records && t.records[q.job].state == Running
  {
    Recoverable(q, t);
    hide Inv, IdsAscend;
  }

  lemma EndsRetried(q: Request, repo: Repo, t: Run, s: Run, exn: Exn)
    requires q.job in t.records && t.records[q.job].state == Running && s.records == t.records
    requires s.l == t.l.(pc := Done(Reraised(exn))) && t.repo == repo
    requires s.repo.chain == repo.chain && s.repo.minted == repo.minted
    ensures Retried(q, s, exn) && SameHistory(repo, s.repo)
  {
  }

  lemma RunningNeverRuns(q: Request, r: Run)
    requires q.job in r.records && r.records[q.job].state == Running
    ensures NeverRunsAgain(q, r)
  {
    hide Refused, Exec;
    forall again
      ensures Refused(q, r.repo, r.records, r.index, Exec(q, Start(q, r.repo, r.records, r.index), again))
    {
      SecondRunIsRefused(q, r.repo, r.records, r.index, again);
    }
  }
}
