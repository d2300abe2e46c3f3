/** An ingest killed at any point, and the recovery that follows. */
module Crashes {
  import opened Prelude
  import opened Job
  import opened Git
  import opened Ingest
  import opened IngestSafety
  import opened IngestTheorems
  import opened Recovery
  import JobStore

  /** The repository a crash leaves: a command that was running may have left anything in
    * the index and the work tree. */
  function Crashed(r: Run, staged: Tree, work: Tree): Repo { Disturbed(r, staged, work).repo }

  /** ... and what recovery makes of it, when git works. */
  function AfterRecovery(q: Request, r: Run, staged: Tree, work: Tree): Repo
    requires ValidRepo(Crashed(r, staged, work))
  {
    if IsRunning(r.records, q.job) then RolledBack(Crashed(r, staged, work)) else Crashed(r, staged, work)
  }

  lemma RolledBackIsClean(r: Repo)
    requires ValidRepo(r)
    ensures ValidRepo(RolledBack(r)) && IsClean(RolledBack(r)) && SameHistory(r, RolledBack(r))
  {
  }

  /** A crashed state that satisfies the invariant is one recovery makes whole. */
  lemma CrashedIsRecoverable(q: Request, r: Run, staged: Tree, work: Tree)
    requires Inv(q, r)
    ensures ValidRepo(Crashed(r, staged, work)) && SameHistory(r.repo, Crashed(r, staged, work))
    ensures IndexOn(r.index, r.repo.chain) && HistoryOk(q, r)
    ensures r.l.checked && !IsRunning(r.records, q.job) ==> IsClean(Crashed(r, staged, work))
  {
    DisturbedKeeps(r, staged, work);
    if !r.l.pc.Load? && !r.l.pc.MarkRunning? && !r.l.pc.Done? {
      Recoverable(q, r);
      hide Inv;
    } else {
      hide FinalTree, Gate, Success, KeyedById, IndexOn;
    }
  }

  /** All or nothing under a crash at any point: once the clean-tree check has passed,
    * recovery leaves a clean tree whose HEAD is the fetched base or this job's one commit
    * above it; before it, the history did not move. The index stays sound either way. */
  lemma CrashThenRecovery(q: Request, repo: Repo, records: JobStore.Records, index: Index, events: seq<Event>,
                          staged: Tree, work: Tree)
    requires Startable(q, repo, records, index)
    ensures var s0 := Start(q, repo, records, index); var r := Exec(q, s0, events);
      && ValidRepo(Crashed(r, staged, work))
      && var after := AfterRecovery(q, r, staged, work);
         && ValidRepo(after) && IndexOn(r.index, after.chain)
         && (r.l.checked ==> BaseFrom(s0, r) && IsClean(after) && HistoryOk(q, r.(repo := after)))
         && (!r.l.checked ==> after.chain == repo.chain)
  {
    var s0 := Start(q, repo, records, index);
    StartInv(q, repo, records, index);
    RunKeepsFrame(q, s0, events);
    var r := Exec(q, s0, events);
    hide Inv, Exec, IndexOn, IndexFrame, SameOthers;
    CrashedIsRecoverable(q, r, staged, work);
    RolledBackIsClean(Crashed(r, staged, work));
    hide Crashed, RolledBack, IsClean;
  }

  /** Unsaved edits survive a crash and the recovery after it exactly when the job was not
    * yet, or no longer, marked running, as it is before the tree is checked, and the status
    * command had not raised. */
  lemma EditsSurviveCrash(q: Request, repo: Repo, records: JobStore.Records, index: Index, events: seq<Event>,
                          staged: Tree, work: Tree)
    requires Startable(q, repo, records, index) && !IsClean(repo)
    ensures var s0 := Start(q, repo, records, index); var r := Exec(q, s0, events);
      && ValidRepo(Crashed(r, staged, work))
      && (AfterRecovery(q, r, staged, work) == repo <==> !IsRunning(r.records, q.job) && !StatusRaised(q, s0, events))
  {
    var s0 := Start(q, repo, records, index);
    StartInv(q, repo, records, index);
    DirtyRun(q, s0, events);
    var r := Exec(q, s0, events);
    CrashedIsRecoverable(q, r, staged, work);
    if StatusRaised(q, s0, events) {
      RaisedIsSettledClean(q, s0, r, staged, work);
    } else {
      assert Crashed(r, staged, work) == repo;
    }
    hide Inv, Exec, StatusRaised, Crashed;
    RolledBackIsClean(Crashed(r, staged, work));
    hide RolledBack, IsClean;
  }

  /** Once the status command raised, the edits are gone before the job is settled. */
  lemma RaisedIsSettledClean(q: Request, s0: Run, r: Run, staged: Tree, work: Tree)
    requires Inv(q, r) && DirtyFrame(s0, r, true)
    ensures IsRunning(r.records, q.job) || IsClean(Crashed(r, staged, work))
  {
    if r.l.pc.Done? {
      hide FinalTree, Gate, Success, KeyedById, IndexOn, IsClean;
    } else {
      Recoverable(q, r);
      hide Inv, IsClean;
    }
  }

  /** Both cases occur: two steps into a run on a dirty tree a crash costs the edits. */
  lemma CrashCostsEdits(q: Request, repo: Repo)
    requires ValidRepo(repo) && !IsClean(repo)
    ensures var r := Exec(q, Start(q, repo, map[], map[]), [Go, Go]);
      r.repo == repo && !r.l.checked && AfterRecovery(q, r, map[], map[]) != repo
  {
    var s0 := Start(q, repo, map[], map[]);
    assert [Go, Go] == [Go] + [Go] && Init([Go, Go]) == [Go] && Init([Go]) == [];
    var loaded := Step(q, s0, Go);
    assert Exec(q, s0, [Go]) == loaded && loaded.l.pc.MarkRunning? && loaded.l.job == NewJob(q.job, q.vault);
    assert Exec(q, s0, [Go, Go]) == Step(q, loaded, Go);
    RolledBackIsClean(repo);
    hide RolledBack, IsClean;
  }

  /** Committed and not yet indexed. */
  predicate Unindexed(pc: Pc) {
    pc.ReadHead? || pc.SetManifest? || pc.Restage? || pc.AmendHead? || pc.ReadAmended? || pc.PutIndex?
  }

  /** A crash between the commit and its indexing leaves a commit that no dedup lookup will
    * find: recovery keeps it, and the text can be ingested again. */
  lemma CrashForgetsCommit(q: Request, r: Run, staged: Tree, work: Tree)
    requires Inv(q, r) && Unindexed(r.l.pc)
    ensures ValidRepo(Crashed(r, staged, work))
    ensures var after := AfterRecovery(q, r, staged, work);
      && ValidRepo(after) && IsClean(after) && Last(after.chain).origin == Some(Origin(q.job, q.sha))
      && q.sha !in r.index
  {
    UnindexedHasLanded(q, r);
    CrashedIsRecoverable(q, r, staged, work);
    RolledBackIsClean(Crashed(r, staged, work));
    hide Inv, Crashed, RolledBack, IsClean, IndexOn;
  }

  lemma UnindexedHasLanded(q: Request, r: Run)
    requires Inv(q, r) && Unindexed(r.l.pc)
    ensures Landed(q, r) && q.sha !in r.index && IsRunning(r.records, q.job)
  {
    hide FinalTree, Gate, DraftTree, IndexOn, WithCommitId;
  }

  /** Exactly when a fresh text is committed and yet not known to the index, whether the run
    * ended or was killed: the commit succeeded and the indexing did not. */
  lemma ForgottenExactly(q: Request, repo: Repo, records: JobStore.Records, index: Index, events: seq<Event>,
                         staged: Tree, work: Tree)
    requires Startable(q, repo, records, index) && q.sha !in index
    ensures var s0 := Start(q, repo, records, index); var r := Exec(q, s0, events);
      && ValidRepo(Crashed(r, staged, work))
      && var after := AfterRecovery(q, r, staged, work);
         (r.l.checked && |after.chain| == |r.l.base| + 1 && q.sha !in r.index) <==>
         CommitSucceeded(q, s0, events) && !IndexingSucceeded(q, s0, events)
  {
    var s0 := Start(q, repo, records, index);
    StartInv(q, repo, records, index);
    RunKeepsInv(q, s0, events);
    CommitIsNeverUndone(q, s0, events);
    IndexedExactly(q, s0, events);
    var r := Exec(q, s0, events);
    hide Inv, Exec, CommitSucceeded, IndexingSucceeded, Crashed;
    CrashedIsRecoverable(q, r, staged, work);
    RolledBackIsClean(Crashed(r, staged, work));
    hide RolledBack, IsClean;
  }
}
