/** The guarantees of one ingest, for every run: any stage may raise anything. */
module IngestTheorems {
  import opened Prelude
  import opened Job
  import opened Git
  import opened Ingest
  import opened IngestSafety
  import JobStore

  /** A run may start on any repository and index that are sound; the tree may be dirty. */
  ghost predicate Startable(q: Request, repo: Repo, records: JobStore.Records, index: Index) {
    ValidRepo(repo) && KeyedById(records) && IndexOn(index, repo.chain)
  }

  /** The index is the starting one, or that with this run's completed commit. */
  ghost predicate IndexFrame(q: Request, s0: Run, r: Run) {
    && (r.index == s0.index || IndexedSince(q, s0, r))
    && (!Late(r.l.pc) ==> r.index == s0.index)
  }

  ghost predicate IndexedSince(q: Request, s0: Run, r: Run) {
    && r.l.checked && Landed(q, r) && q.sha !in s0.index
    && r.index == s0.index[q.sha := IndexRecord(q, r.l.batch, Last(r.repo.chain).id)]
  }

  ghost predicate RepoFrame(s0: Run, r: Run) {
    && ValidRepo(s0.repo) && ValidRepo(r.repo)
    && (r.l.checked ==> BaseFrom(s0, r))
    && (!r.l.checked ==> r.repo.chain == s0.repo.chain)
    && (Early(r.l.pc) ==> r.repo == s0.repo)
  }

  /** What a run leaves alone, relative to the state it started from. */
  ghost predicate Frame(q: Request, s0: Run, r: Run) {
    SameOthers(q, s0, r) && IndexFrame(q, s0, r) && RepoFrame(s0, r)
  }

  lemma {:induction false} RunKeepsInv(q: Request, s0: Run, events: seq<Event>)
    requires Inv(q, s0)
    ensures Inv(q, Exec(q, s0, events))
  {
    if events == [] {
    } else {
      RunKeepsInv(q, s0, Init(events));
      StepKeepsInv(q, Exec(q, s0, Init(events)), Last(events));
    }
  }

  /** `s` has the records of `r`, except possibly this job's. */
  ghost predicate SameOthers(q: Request, r: Run, s: Run) {
    && (forall id :: id != q.job ==> (id in s.records <==> id in r.records))
    && (forall id :: id != q.job && id in r.records ==> s.records[id] == r.records[id])
  }

  lemma InvJobId(q: Request, r: Run)
    requires Inv(q, r)
    ensures ValidRepo(r.repo)
    ensures !r.l.pc.Load? && !r.l.pc.Done? ==> r.l.job.id == q.job
    ensures r.l.pc.Dedup? || r.l.pc.PreSync? ==> r.l.checked && r.repo.chain == r.l.base
    ensures r.l.pc.CleanTree? ==> !r.l.checked
    ensures Late(r.l.pc) ==> HistoryOk(q, r)
    ensures r.l.pc.CommitNotes? ==> r.l.checked && r.repo.chain == r.l.base
    ensures r.l.pc.AmendHead? ==> r.l.checked && Landed(q, r)
    ensures r.l.pc.PutIndex? ==> r.l.checked && Landed(q, r) && q.sha !in r.index && r.l.commit == Last(r.repo.chain).id
  {
  }

  /** An exception moves the program counter, to a late stage, and nothing else. */
  lemma ThrowOnlyMoves(r: Run, exn: Exn)
    ensures Throw(r, exn) == Goto(r, Throw(r, exn).l.pc)
    ensures Late(Throw(r, exn).l.pc)
  {
  }

  predicate Records(pc: Pc) {
    pc.Load? || pc.MarkRunning? || pc.DedupFinish? || pc.Finish? || pc.FailUpdate?
  }

  lemma AdvanceKeepsRecords(q: Request, r: Run)
    requires ValidRepo(r.repo) && !Records(r.l.pc)
    ensures Advance(q, r).records == r.records
  {
    hide StepLoad, StepMarkRunning, StepDedup, StepDedupFinish, StepWriteNote, StepCommit, StepSetManifest,
      StepAmend, StepFinish, StepClean, StepFailUpdate;
  }

  lemma AdvanceFramesRecords(q: Request, r: Run)
    requires Inv(q, r) && Records(r.l.pc)
    ensures OneRecord(r.records, Advance(q, r).records, q.job)
  {
  }

  /** Only indexing changes the index. */
  lemma AdvanceKeepsIndex(q: Request, r: Run)
    requires ValidRepo(r.repo) && !r.l.pc.PutIndex?
    ensures Advance(q, r).index == r.index
  {
    hide StepLoad, StepMarkRunning, StepDedup, StepDedupFinish, StepWriteNote, StepCommit, StepSetManifest,
      StepAmend, StepFinish, StepClean, StepFailUpdate;
  }

  lemma AdvanceKeepsBaseOutside(q: Request, r: Run)
    requires ValidRepo(r.repo) && (Early(r.l.pc) || Late(r.l.pc)) && !r.l.pc.CleanTree?
    ensures SameTerms(r, Advance(q, r))
  {
    hide StepLoad, StepMarkRunning, StepDedup, StepDedupFinish, StepWriteNote, StepCommit, StepSetManifest,
      StepAmend, StepFinish, StepClean, StepFailUpdate;
  }

  lemma AdvanceKeepsBaseInside(q: Request, r: Run)
    requires ValidRepo(r.repo) && !Early(r.l.pc) && !Late(r.l.pc)
    ensures SameTerms(r, Advance(q, r)) && !Early(Advance(q, r).l.pc)
  {
    hide StepLoad, StepMarkRunning, StepDedup, StepDedupFinish, StepWriteNote, StepCommit, StepSetManifest,
      StepAmend, StepFinish, StepClean, StepFailUpdate, WithText, WithManifest;
  }

  /** Only the clean-tree check sets the base. */
  lemma AdvanceKeepsBase(q: Request, r: Run)
    requires ValidRepo(r.repo) && !r.l.pc.CleanTree?
    ensures SameTerms(r, Advance(q, r))
  {
    if Early(r.l.pc) || Late(r.l.pc) {
      AdvanceKeepsBaseOutside(q, r);
    } else {
      AdvanceKeepsBaseInside(q, r);
    }
  }

  /** Only committing and amending change the chain. */
  lemma AdvanceKeepsChain(q: Request, r: Run)
    requires ValidRepo(r.repo) && !r.l.pc.CommitNotes? && !r.l.pc.AmendHead?
    ensures Advance(q, r).repo.chain == r.repo.chain
  {
    hide StepLoad, StepMarkRunning, StepDedup, StepDedupFinish, StepWriteNote, StepCommit, StepSetManifest,
      StepAmend, StepFinish, StepClean, StepFailUpdate;
  }

  /** The stages up to drafting change nothing in the repository. */
  lemma AdvanceKeepsRepo(q: Request, r: Run)
    requires ValidRepo(r.repo) && Early(r.l.pc)
    ensures Advance(q, r).repo == r.repo
  {
  }

  lemma AdvanceStaysLate(q: Request, r: Run)
    requires ValidRepo(r.repo) && (Late(r.l.pc) || r.l.pc.PutIndex?)
    ensures Late(Advance(q, r).l.pc)
  {
  }

  /** The base of a checked run: the starting history, then fetched commits only. */
  ghost predicate BaseFrom(s0: Run, r: Run)
    requires ValidRepo(s0.repo)
  {
    && IsClean(s0.repo) && s0.repo.chain <= r.l.base
    && forall i :: |s0.repo.chain| <= i < |r.l.base| ==> r.l.base[i].origin.None?
  }

  lemma AdvanceFramesIndex(q: Request, s0: Run, r: Run)
    requires Inv(q, r) && IndexFrame(q, s0, r)
    ensures IndexFrame(q, s0, Advance(q, r))
  {
    InvJobId(q, r);
    hide Inv, Advance;
    if r.l.pc.PutIndex? {
      AdvanceIndexes(q, r);
    } else {
      AdvanceKeepsIndex(q, r);
      if r.index != s0.index {
        AdvanceKeepsBase(q, r);
        AdvanceKeepsChain(q, r);
        AdvanceStaysLate(q, r);
      }
    }
  }

  lemma AdvanceIndexes(q: Request, r: Run)
    requires ValidRepo(r.repo) && r.l.pc.PutIndex?
    ensures var s := Advance(q, r);
      && s.index == r.index[q.sha := IndexRecord(q, r.l.batch, r.l.commit)]
      && s.repo == r.repo && SameTerms(r, s) && Late(s.l.pc)
  {
    hide IndexRecord, IdsAscend, StepLoad, StepMarkRunning, StepDedup, StepDedupFinish, StepWriteNote, StepCommit,
      StepSetManifest, StepAmend, StepFinish, StepClean, StepFailUpdate;
  }

  lemma AdvanceFramesRepo(q: Request, s0: Run, r: Run)
    requires Inv(q, r) && RepoFrame(s0, r)
    ensures RepoFrame(s0, Advance(q, r))
  {
    AdvanceKeepsInv(q, r);
    InvJobId(q, r);
    InvJobId(q, Advance(q, r));
    if Early(r.l.pc) {
      AdvanceKeepsRepo(q, r);
      if !r.l.pc.CleanTree? {
        AdvanceKeepsBase(q, r);
      }
    } else {
      AdvanceKeepsBase(q, r);
      hide Inv, Advance;
      if !r.l.pc.CommitNotes? && !r.l.pc.AmendHead? {
        AdvanceKeepsChain(q, r);
      }
      AdvanceLeavesEarly(q, r);
    }
  }

  lemma AdvanceLeavesEarly(q: Request, r: Run)
    requires ValidRepo(r.repo) && !Early(r.l.pc)
    ensures !Early(Advance(q, r).l.pc)
  {
    hide Advance;
    if Late(r.l.pc) {
      AdvanceStaysLate(q, r);
    } else {
      AdvanceKeepsBaseInside(q, r);
    }
  }

  lemma AdvanceFrames(q: Request, s0: Run, r: Run)
    requires Inv(q, r) && Frame(q, s0, r)
    ensures Frame(q, s0, Advance(q, r))
  {
    hide Inv, Advance, IndexFrame, RepoFrame;
    InvJobId(q, r);
    AdvanceFramesIndex(q, s0, r);
    AdvanceFramesRepo(q, s0, r);
    if Records(r.l.pc) {
      AdvanceFramesRecords(q, r);
    } else {
      AdvanceKeepsRecords(q, r);
    }
  }

  lemma DisturbedKeeps(r: Run, staged: Tree, work: Tree)
    ensures var d := Disturbed(r, staged, work);
      SameHistory(r.repo, d.repo) && d == r.(repo := d.repo) && (ValidRepo(r.repo) ==> ValidRepo(d.repo))
  {
  }

  lemma ThrowFrames(q: Request, s0: Run, r: Run, exn: Exn, staged: Tree, work: Tree)
    requires Inv(q, r) && Frame(q, s0, r)
    ensures Frame(q, s0, Throw(Disturbed(r, staged, work), exn))
  {
    InvJobId(q, r);
    DisturbedKeeps(r, staged, work);
    ThrowOnlyMoves(Disturbed(r, staged, work), exn);
    hide Inv, Throw, Disturbed, BaseFrom, IndexRecord;
  }

  lemma FetchedFrames(q: Request, s0: Run, r: Run, trees: seq<Tree>)
    requires Inv(q, r) && Frame(q, s0, r) && r.l.pc.PreSync?
    ensures Frame(q, s0, StepPreSync(r, trees))
  {
  }

  lemma DraftedFrames(q: Request, s0: Run, r: Run, e: Event)
    requires Inv(q, r) && Frame(q, s0, r) && (e.Drafted? || e.StageFailed?)
    ensures Frame(q, s0, Step(q, r, e))
  {
    InvJobId(q, r);
    DraftingOnlyMoves(q, r, e);
    hide Inv, Gate, IndexRecord, BaseFrom, Step, IdsAscend;
  }

  lemma DraftingOnlyMoves(q: Request, r: Run, e: Event)
    requires ValidRepo(r.repo) && (e.Drafted? || e.StageFailed?)
    ensures var s := Step(q, r, e);
      && s.repo == r.repo && s.records == r.records && s.index == r.index
      && s.l.checked == r.l.checked && s.l.base == r.l.base
      && (Early(s.l.pc) <==> Early(r.l.pc)) && (Late(r.l.pc) ==> s == r)
  {
    hide Gate, IdsAscend;
  }

  lemma StepFrames(q: Request, s0: Run, r: Run, e: Event)
    requires Inv(q, r) && Frame(q, s0, r)
    ensures Frame(q, s0, Step(q, r, e))
  {
    InvJobId(q, r);
    hide Inv, Advance, Throw, Frame;
    match e
    case Go => AdvanceFrames(q, s0, r);
    case Raise(exn, staged, work) => ThrowFrames(q, s0, r, exn, staged, work);
    case Fetched(trees) =>
      if r.l.pc.PreSync? {
        FetchedFrames(q, s0, r, trees);
      }
    case _ => DraftedFrames(q, s0, r, e);
  }

  lemma {:induction false} RunKeepsFrame(q: Request, s0: Run, events: seq<Event>)
    requires Inv(q, s0) && s0.l.pc.Load?
    ensures Inv(q, Exec(q, s0, events)) && Frame(q, s0, Exec(q, s0, events))
  {
    RunKeepsInv(q, s0, events);
    if events == [] {
      return;
    }
    RunKeepsFrame(q, s0, Init(events));
    StepFrames(q, s0, Exec(q, s0, Init(events)), Last(events));
  }

  // ----- all or nothing -------------------------------------------------------------

  lemma StartInv(q: Request, repo: Repo, records: JobStore.Records, index: Index)
    requires Startable(q, repo, records, index)
    ensures Inv(q, Start(q, repo, records, index))
  {
  }

  /** The rollback was not skipped by a foreign exception and did not itself fail. */
  predicate Orderly(ending: Ending) {
    !ending.Escaped? && !ending.RollbackRaised?
  }

  /** Whatever raises, wherever: a run that passed the clean-tree check leaves HEAD at the
    * fetched base or exactly one commit of its own above it; when it ends in order the tree
    * is clean; the index gains the completed commit or nothing; no other record changes. */
  lemma OneCommitOrNone(q: Request, repo: Repo, records: JobStore.Records, index: Index, events: seq<Event>)
    requires Startable(q, repo, records, index)
    ensures var s0 := Start(q, repo, records, index); var r := Exec(q, s0, events);
      && ValidRepo(r.repo) && SameOthers(q, s0, r)
      && (r.l.checked ==> BaseFrom(s0, r))
      && (!r.l.checked ==> r.repo.chain == repo.chain)
      && (r.index == index || IndexedSince(q, s0, r))
      && (r.l.pc.Done? ==> HistoryOk(q, r))
      && (r.l.pc.Done? && r.l.checked && Orderly(r.l.pc.ending) ==> IsClean(r.repo))
  {
    StartInv(q, repo, records, index);
    RunKeepsFrame(q, Start(q, repo, records, index), events);
  }

  /** The dedup short-circuit: a run on an indexed text never moves the history. */
  ghost predicate DedupFrame(q: Request, s0: Run, r: Run) {
    if q.sha in s0.index
    then SameHistory(s0.repo, r.repo) && (r.l.checked ==> r.l.base == s0.repo.chain)
         && (Early(r.l.pc) || Unwinding(r.l.pc))
    else !r.l.pc.DedupFinish?
  }

  lemma AdvanceKeepsHistory(q: Request, r: Run)
    requires ValidRepo(r.repo)
    requires Early(r.l.pc) || Unwinding(r.l.pc)
    ensures SameHistory(r.repo, Advance(q, r).repo)
    ensures !r.l.pc.CleanTree? ==> SameTerms(r, Advance(q, r))
  {
    if !r.l.pc.CleanTree? {
      AdvanceKeepsBase(q, r);
    }
    if Early(r.l.pc) {
      AdvanceKeepsRepo(q, r);
    } else {
      UnwindingGoesOn(q, r);
    }
    hide Advance;
  }

  lemma AdvanceDedups(q: Request, r: Run)
    requires ValidRepo(r.repo) && q.sha in r.index
    requires Early(r.l.pc) || Unwinding(r.l.pc)
    ensures Early(Advance(q, r).l.pc) || Unwinding(Advance(q, r).l.pc)
  {
    if Early(r.l.pc) {
      hide FailedWith, Settle, IsClean;
    } else {
      UnwindingGoesOn(q, r);
      hide Advance;
    }
  }

  predicate Unwinding(pc: Pc) { pc.Reset? || pc.Clean? || pc.FailUpdate? || pc.Done? }

  lemma UnwindingGoesOn(q: Request, r: Run)
    requires ValidRepo(r.repo) && Unwinding(r.l.pc)
    ensures Unwinding(Advance(q, r).l.pc) && SameHistory(r.repo, Advance(q, r).repo)
  {
    hide FailedWith;
  }

  lemma AdvanceKeepsDedupFrame(q: Request, s0: Run, r: Run)
    requires Inv(q, r) && Frame(q, s0, r) && DedupFrame(q, s0, r) && q.sha in s0.index
    ensures DedupFrame(q, s0, Advance(q, r))
  {
    InvJobId(q, r);
    AdvanceKeepsHistory(q, r);
    AdvanceDedups(q, r);
    AdvanceFramesRepo(q, s0, r);
    if r.l.pc.CleanTree? {
      hide Inv, IndexFrame;
    } else {
      hide Inv, IndexFrame, Advance;
    }
  }

  lemma StepKeepsDedupFrame(q: Request, s0: Run, r: Run, e: Event)
    requires Inv(q, r) && Frame(q, s0, r) && DedupFrame(q, s0, r)
    ensures DedupFrame(q, s0, Step(q, r, e))
  {
    InvJobId(q, r);
    if q.sha !in s0.index {
      NeverDedups(q, r, e);
    } else if e.Go? {
      AdvanceKeepsDedupFrame(q, s0, r);
    } else if e.Raise? {
      DisturbedKeeps(r, e.staged, e.work);
      ThrowOnlyMoves(Disturbed(r, e.staged, e.work), e.exn);
      ThrowAvoids(Disturbed(r, e.staged, e.work), e.exn);
    }
    hide Inv, Disturbed, Throw, Advance;
  }

  lemma ThrowAvoids(r: Run, exn: Exn)
    ensures Throw(r, exn).l.pc.PushHead? || Throw(r, exn).l.pc.Finish? ==> r.l.pc.PushHead?
  {
  }

  lemma NeverDedups(q: Request, r: Run, e: Event)
    requires ValidRepo(r.repo) && (q.sha !in r.index || Late(r.l.pc)) && !r.l.pc.DedupFinish?
    ensures !Step(q, r, e).l.pc.DedupFinish?
  {
    if e.Go? && !Early(r.l.pc) {
      AdvanceLeavesEarly(q, r);
    } else if e.Raise? {
      ThrowOnlyMoves(Disturbed(r, e.staged, e.work), e.exn);
    }
    hide Advance, Gate;
  }

  lemma {:induction false} RunKeepsDedupFrame(q: Request, s0: Run, events: seq<Event>)
    requires Inv(q, s0) && s0.l.pc.Load? && !s0.l.checked
    ensures Inv(q, Exec(q, s0, events)) && Frame(q, s0, Exec(q, s0, events))
    ensures DedupFrame(q, s0, Exec(q, s0, events))
  {
    RunKeepsFrame(q, s0, events);
    if events == [] {
    } else {
      RunKeepsDedupFrame(q, s0, Init(events));
      StepKeepsDedupFrame(q, s0, Exec(q, s0, Init(events)), Last(events));
    }
  }

  /** A fresh text that succeeds is one commit: exactly its notes and archive over the base,
    * indexed under the sha HEAD now has, and recorded. */
  lemma SuccessIsOneCommit(q: Request, repo: Repo, records: JobStore.Records, index: Index, events: seq<Event>)
    requires Startable(q, repo, records, index) && q.sha !in index
    requires var pc := Exec(q, Start(q, repo, records, index), events).l.pc;
      pc.Done? && pc.ending.Returned? && pc.ending.record.state == Succeeded
    ensures var s0 := Start(q, repo, records, index); var r := Exec(q, s0, events); var rec := r.l.pc.ending.record;
      && r.l.checked && BaseFrom(s0, r) && Landed(q, r) && ValidRepo(r.repo) && IsClean(r.repo)
      && Gate(q, r.l.batch, ExistingPaths(BaseTree(r))) && FinalTree(q, r, HeadTree(r.repo))
      && r.index == index[q.sha := IndexRecord(q, r.l.batch, Last(r.repo.chain).id)]
      && q.job in r.records && r.records[q.job] == rec && rec.commitSha == Some(Last(r.repo.chain).id)
      && rec.notesCreated == Created(r.l.batch) && rec.notesUpdated == Updated(r.l.batch)
  {
    var s0 := Start(q, repo, records, index);
    assert s0.l.pc.Load? && s0.index == index;
    hide *;
    StartInv(q, repo, records, index);
    RunKeepsFrame(q, s0, events);
    FreshSuccess(q, s0, Exec(q, s0, events));
  }

  lemma FreshSuccess(q: Request, s0: Run, r: Run)
    requires Inv(q, r) && Frame(q, s0, r) && q.sha !in s0.index
    requires r.l.pc.Done? && r.l.pc.ending.Returned? && r.l.pc.ending.record.state == Succeeded
    ensures var rec := r.l.pc.ending.record;
      && r.l.checked && BaseFrom(s0, r) && Landed(q, r) && ValidRepo(r.repo) && IsClean(r.repo)
      && Gate(q, r.l.batch, ExistingPaths(BaseTree(r))) && FinalTree(q, r, HeadTree(r.repo))
      && r.index == s0.index[q.sha := IndexRecord(q, r.l.batch, Last(r.repo.chain).id)]
      && q.job in r.records && r.records[q.job] == rec && rec.commitSha == Some(Last(r.repo.chain).id)
      && rec.notesCreated == Created(r.l.batch) && rec.notesUpdated == Updated(r.l.batch)
  {
    hide FinalTree, Gate, ExistingPaths, Created, Updated, KeyedById, IndexOn, BaseFrom, IdsAscend, IsClean;
  }

  /** An indexed text changes neither the repository nor the index, and its success points
    * at the commit that already holds it. */
  lemma DuplicateChangesNothing(q: Request, repo: Repo, records: JobStore.Records, index: Index, events: seq<Event>)
    requires Startable(q, repo, records, index) && q.sha in index
    ensures var s0 := Start(q, repo, records, index); var r := Exec(q, s0, events);
      && SameHistory(repo, r.repo) && r.index == index
      && (r.l.pc.Done? && r.l.checked && Orderly(r.l.pc.ending) ==> r.repo == repo)
      && (r.l.pc.Done? && r.l.pc.ending.Returned? && r.l.pc.ending.record.state == Succeeded ==>
          r.l.checked && r.l.pc.ending.record.dedupOf == Some(index[q.sha].job)
          && r.l.pc.ending.record.commitSha == Some(index[q.sha].commit))
  {
    var s0 := Start(q, repo, records, index);
    StartInv(q, repo, records, index);
    RunKeepsDedupFrame(q, s0, events);
    OneCommitOrNone(q, repo, records, index, events);
    hide FinalTree, Gate, KeyedById, IndexOn;
  }

  // ----- when exactly the history grows ---------------------------------------------

  predicate Grown(r: Run) {
    r.l.checked && |r.repo.chain| == |r.l.base| + 1
  }

  lemma InvGrown(q: Request, r: Run)
    requires Inv(q, r)
    ensures r.l.pc.ReadHead? ==> Grown(r)
    ensures r.l.pc.CommitNotes? || r.l.pc.PreSync? || r.l.pc.Drafting? ==> r.l.checked && r.repo.chain == r.l.base
    ensures r.l.pc.AmendHead? ==> Grown(r)
    ensures r.l.pc.CleanTree? ==> !r.l.checked
  {
  }

  lemma CommitStagesGrow(q: Request, r: Run)
    requires Inv(q, r) && (r.l.pc.CommitNotes? || r.l.pc.AmendHead? || r.l.pc.CleanTree?)
    ensures Grown(Advance(q, r)) <==> Grown(r) || Advance(q, r).l.pc.ReadHead?
  {
    InvGrown(q, r);
    hide Inv;
  }

  lemma OnlyCommitReachesReadHead(q: Request, r: Run)
    requires ValidRepo(r.repo) && !r.l.pc.CommitNotes?
    ensures !Advance(q, r).l.pc.ReadHead?
  {
    if Late(r.l.pc) {
      AdvanceStaysLate(q, r);
      hide Advance;
    } else {
      OnlyCommitReachesReadHeadEarly(q, r);
    }
  }

  lemma OnlyCommitReachesReadHeadEarly(q: Request, r: Run)
    requires ValidRepo(r.repo) && !r.l.pc.CommitNotes? && !Late(r.l.pc)
    ensures !Advance(q, r).l.pc.ReadHead?
  {
    hide StepLoad, StepMarkRunning, StepDedup, StepDedupFinish, StepWriteNote, StepSetManifest, StepAmend, WithText,
      WithManifest, IdsAscend, IsClean, StepCommit, StepFinish, StepClean, StepFailUpdate, IndexRecord, AddAll,
      Committed, Amended, ResetHard, FastForwarded;
  }

  lemma ReceivedDoesNotGrow(q: Request, r: Run, e: Event)
    requires Inv(q, r) && !e.Go? && !e.Raise?
    ensures Grown(Step(q, r, e)) <==> Grown(r) || Step(q, r, e).l.pc.ReadHead?
  {
    InvGrown(q, r);
    hide Inv, Gate;
  }

  lemma StepGrows(q: Request, r: Run, e: Event)
    requires Inv(q, r)
    ensures Grown(Step(q, r, e)) <==> Grown(r) || Step(q, r, e).l.pc.ReadHead?
  {
    InvGrown(q, r);
    InvJobId(q, r);
    if e.Go? {
      if r.l.pc.CommitNotes? || r.l.pc.AmendHead? || r.l.pc.CleanTree? {
        CommitStagesGrow(q, r);
      } else {
        AdvanceKeepsBase(q, r);
        AdvanceKeepsChain(q, r);
        OnlyCommitReachesReadHead(q, r);
      }
    } else if e.Raise? {
      DisturbedKeeps(r, e.staged, e.work);
      ThrowOnlyMoves(Disturbed(r, e.staged, e.work), e.exn);
    } else {
      ReceivedDoesNotGrow(q, r, e);
    }
    hide Inv, Advance, Disturbed, Throw;
  }

  ghost predicate CommitSucceeded(q: Request, s0: Run, events: seq<Event>) {
    exists k :: 0 <= k <= |events| && Exec(q, s0, events[..k]).l.pc.ReadHead?
  }

  /** HEAD grows exactly when the commit command succeeded, and no later failure undoes it:
    * the rollback that follows a failed amend or record update resets to the new HEAD. */
  lemma {:induction false} CommitIsNeverUndone(q: Request, s0: Run, events: seq<Event>)
    requires Inv(q, s0) && !s0.l.checked && s0.l.pc.Load?
    ensures Grown(Exec(q, s0, events)) <==> CommitSucceeded(q, s0, events)
  {
    assert events[..|events|] == events;
    if events == [] {
      return;
    }
    CommitIsNeverUndone(q, s0, Init(events));
    RunKeepsInv(q, s0, Init(events));
    StepGrows(q, Exec(q, s0, Init(events)), Last(events));
    forall k | 0 <= k <= |events|
      ensures k <= |events| - 1 ==> events[..k] == Init(events)[..k]
    {
    }
    hide Inv, Step;
    if CommitSucceeded(q, s0, Init(events)) {
      var k :| 0 <= k <= |Init(events)| && Exec(q, s0, Init(events)[..k]).l.pc.ReadHead?;
      assert events[..k] == Init(events)[..k];
    }
    if CommitSucceeded(q, s0, events) {
      var k :| 0 <= k <= |events| && Exec(q, s0, events[..k]).l.pc.ReadHead?;
      assert k < |events| ==> events[..k] == Init(events)[..k];
    }
  }

  // ----- when exactly the text is indexed -------------------------------------------

  /** The indexing step succeeded at event `k`. */
  ghost predicate IndexedAt(q: Request, s0: Run, events: seq<Event>, k: nat)
    requires k < |events|
  {
    Exec(q, s0, events[..k]).l.pc.PutIndex? && events[k].Go?
  }

  ghost predicate IndexingSucceeded(q: Request, s0: Run, events: seq<Event>) {
    exists k :: 0 <= k < |events| && IndexedAt(q, s0, events, k)
  }

  lemma StepIndexes(q: Request, r: Run, e: Event)
    requires Inv(q, r)
    ensures q.sha in Step(q, r, e).index <==> q.sha in r.index || (r.l.pc.PutIndex? && e.Go?)
  {
    InvJobId(q, r);
    hide Inv, Advance, Throw, Disturbed, IdsAscend;
    if e.Go? {
      if r.l.pc.PutIndex? {
        AdvanceIndexes(q, r);
      } else {
        AdvanceKeepsIndex(q, r);
      }
    } else if e.Raise? {
      DisturbedKeeps(r, e.staged, e.work);
      ThrowOnlyMoves(Disturbed(r, e.staged, e.work), e.exn);
    } else if !e.Fetched? {
      DraftingOnlyMoves(q, r, e);
    }
  }

  lemma IndexingSnoc(q: Request, s0: Run, events: seq<Event>)
    requires events != []
    ensures IndexingSucceeded(q, s0, events) <==>
      IndexingSucceeded(q, s0, Init(events)) || IndexedAt(q, s0, events, |events| - 1)
  {
    hide Exec;
    var before := Init(events);
    forall i | 0 <= i < |before|
      ensures IndexedAt(q, s0, events, i) == IndexedAt(q, s0, before, i)
    {
      assert events[..i] == before[..i];
    }
  }

  /** A fresh text is indexed exactly when the indexing step succeeded: a commit whose amend,
    * or whose indexing, failed or never came stays and is not found again. */
  lemma {:induction false} IndexedExactly(q: Request, s0: Run, events: seq<Event>)
    requires Inv(q, s0) && q.sha !in s0.index
    ensures q.sha in Exec(q, s0, events).index <==> IndexingSucceeded(q, s0, events)
  {
    if events == [] {
    } else {
      hide Inv, Step, IndexingSucceeded;
      IndexedExactly(q, s0, Init(events));
      RunKeepsInv(q, s0, Init(events));
      StepIndexes(q, Exec(q, s0, Init(events)), Last(events));
      IndexingSnoc(q, s0, events);
      assert events[..|events| - 1] == Init(events);
    }
  }

  // ----- the record of the job ------------------------------------------------------

  /** The job has a record, which is terminal only if the run returned it. */
  predicate SettledByReturn(q: Request, r: Run) {
    q.job in r.records && (Settled(r.records[q.job].state) ==> r.l.pc.Done? && r.l.pc.ending.Returned?)
  }

  lemma AdvanceSettles(q: Request, r: Run)
    requires Inv(q, r) && SettledByReturn(q, r) && Records(r.l.pc)
    ensures SettledByReturn(q, Advance(q, r))
  {
    hide FinalTree, Gate, IndexOn, DraftTree, IdsAscend;
  }

  lemma StepSettles(q: Request, r: Run, e: Event)
    requires Inv(q, r) && SettledByReturn(q, r)
    ensures SettledByReturn(q, Step(q, r, e))
  {
    InvJobId(q, r);
    hide Inv, Advance, Throw, Disturbed, IdsAscend;
    if r.l.pc.Done? {
      DoneStays(q, r, e);
    } else if e.Go? {
      if Records(r.l.pc) {
        AdvanceSettles(q, r);
      } else {
        AdvanceKeepsRecords(q, r);
      }
    } else if e.Raise? {
      DisturbedKeeps(r, e.staged, e.work);
      ThrowOnlyMoves(Disturbed(r, e.staged, e.work), e.exn);
    } else if !e.Fetched? {
      DraftingOnlyMoves(q, r, e);
    }
  }

  lemma DoneStays(q: Request, r: Run, e: Event)
    requires r.l.pc.Done?
    ensures Step(q, r, e) == r
  {
    hide IdsAscend;
  }

  lemma {:induction false} RunSettles(q: Request, s0: Run, events: seq<Event>)
    requires Inv(q, s0) && SettledByReturn(q, s0)
    ensures SettledByReturn(q, Exec(q, s0, events))
  {
    hide Inv, Step, SettledByReturn;
    if events == [] {
    } else {
      RunSettles(q, s0, Init(events));
      RunKeepsInv(q, s0, Init(events));
      StepSettles(q, Exec(q, s0, Init(events)), Last(events));
    }
  }

  /** What a run returns is the terminal record it stored for the job. */
  lemma ReturnedIsStored(q: Request, repo: Repo, records: JobStore.Records, index: Index, events: seq<Event>)
    requires Startable(q, repo, records, index)
    requires var pc := Exec(q, Start(q, repo, records, index), events).l.pc; pc.Done? && pc.ending.Returned?
    ensures var r := Exec(q, Start(q, repo, records, index), events); var rec := r.l.pc.ending.record;
      q.job in r.records && r.records[q.job] == rec && Settled(rec.state) && rec.id == q.job
  {
    StartInv(q, repo, records, index);
    RunKeepsInv(q, Start(q, repo, records, index), events);
    hide Exec, FinalTree, Gate, IndexOn, IdsAscend, Success, IsClean;
  }

  /** What a finished run makes of a record still to be settled: it returns it, terminal as
    * stored, or raises and leaves it to be settled. */
  lemma RunMeetsContract(q: Request, repo: Repo, records: JobStore.Records, index: Index, events: seq<Event>)
    requires Startable(q, repo, records, index) && q.job in records && !Settled(records[q.job].state)
    requires Exec(q, Start(q, repo, records, index), events).l.pc.Done?
    ensures var r := Exec(q, Start(q, repo, records, index), events);
      && q.job in r.records && (Settled(r.records[q.job].state) <==> r.l.pc.ending.Returned?)
      && (r.l.pc.ending.Returned? ==> r.l.pc.ending.record == r.records[q.job])
  {
    var s0 := Start(q, repo, records, index);
    StartInv(q, repo, records, index);
    RunKeepsInv(q, s0, events);
    RunSettles(q, s0, events);
    hide Exec, FinalTree, Gate, IndexOn, IdsAscend, Success, IsClean;
  }

  // ----- unsaved edits --------------------------------------------------------------

  /** The status command itself failed with an error the handlers treat like any other. */
  ghost predicate StatusRaised(q: Request, s0: Run, events: seq<Event>) {
    exists k :: 0 <= k < |events| && StatusRaisedAt(q, s0, events, k)
  }

  ghost predicate StatusRaisedAt(q: Request, s0: Run, events: seq<Event>, k: nat)
    requires k < |events|
  {
    Exec(q, s0, events[..k]).l.pc.CleanTree? && events[k].Raise? && events[k].exn.Groundtruth()
  }

  /** A run that found the tree dirty, or could not find out. */
  ghost predicate DirtyFrame(s0: Run, r: Run, raised: bool)
    requires ValidRepo(r.repo)
  {
    && !r.l.checked
    && if !raised
       then r.repo == s0.repo
            && (r.l.pc.Load? || r.l.pc.MarkRunning? || r.l.pc.CleanTree? || r.l.pc.FailUpdate? || r.l.pc.Done?)
            && (r.l.pc.Done? ==> !r.l.pc.ending.RollbackRaised?)
       else Unwinding(r.l.pc) && SameHistory(s0.repo, r.repo)
            && (r.l.pc.FailUpdate? || (r.l.pc.Done? && !r.l.pc.ending.RollbackRaised?) ==> IsClean(r.repo))
  }

  lemma DirtyAdvances(q: Request, s0: Run, r: Run, raised: bool)
    requires Inv(q, r) && DirtyFrame(s0, r, raised) && !IsClean(s0.repo)
    ensures ValidRepo(Advance(q, r).repo) && DirtyFrame(s0, Advance(q, r), raised)
  {
    AdvanceKeepsInv(q, r);
    InvJobId(q, Advance(q, r));
    if raised {
      UnwindingGoesOn(q, r);
      UnwindingCleans(q, r);
      AdvanceKeepsBase(q, r);
    } else {
      DirtyIsRefused(q, r);
    }
    hide Inv, Advance;
  }

  lemma UnwindingCleans(q: Request, r: Run)
    requires Inv(q, r) && Unwinding(r.l.pc)
    ensures r.l.pc.Clean? ==> IsClean(Advance(q, r).repo) && !Advance(q, r).l.pc.Reset? && !Advance(q, r).l.pc.Clean?
    ensures r.l.pc.Clean? && Advance(q, r).l.pc.Done? ==> !Advance(q, r).l.pc.ending.RollbackRaised?
    ensures r.l.pc.Reset? ==> Advance(q, r).l.pc.Clean?
    ensures r.l.pc.FailUpdate? || r.l.pc.Done? ==> Advance(q, r).repo == r.repo
    ensures r.l.pc.FailUpdate? ==> Advance(q, r).l.pc.Done? && !Advance(q, r).l.pc.ending.RollbackRaised?
    ensures r.l.pc.Done? ==> Advance(q, r) == r
  {
    hide Inv, Advance, IsClean, IdsAscend;
    InvJobId(q, r);
    if r.l.pc.Clean? {
      CleaningCleans(q, r);
    } else {
      OtherUnwinding(q, r);
    }
  }

  lemma CleaningCleans(q: Request, r: Run)
    requires Inv(q, r) && r.l.pc.Clean?
    ensures var s := Advance(q, r);
      && ValidRepo(s.repo) && IsClean(s.repo) && !s.l.pc.Reset? && !s.l.pc.Clean?
      && (s.l.pc.Done? ==> !s.l.pc.ending.RollbackRaised?)
  {
    hide IndexOn, KeyedById, FailedWith;
  }

  lemma OtherUnwinding(q: Request, r: Run)
    requires ValidRepo(r.repo) && (r.l.pc.Reset? || r.l.pc.FailUpdate? || r.l.pc.Done?)
    ensures r.l.pc.Reset? ==> Advance(q, r).l.pc.Clean?
    ensures r.l.pc.FailUpdate? || r.l.pc.Done? ==> Advance(q, r).repo == r.repo
    ensures r.l.pc.FailUpdate? ==> Advance(q, r).l.pc.Done? && !Advance(q, r).l.pc.ending.RollbackRaised?
    ensures r.l.pc.Done? ==> Advance(q, r) == r
  {
  }

  lemma DirtyIsRefused(q: Request, r: Run)
    requires ValidRepo(r.repo) && !IsClean(r.repo) && !r.l.checked
    requires r.l.pc.Load? || r.l.pc.MarkRunning? || r.l.pc.CleanTree? || r.l.pc.FailUpdate? || r.l.pc.Done?
    requires r.l.pc.Done? ==> !r.l.pc.ending.RollbackRaised?
    ensures var s := Advance(q, r);
      && s.repo == r.repo && !s.l.checked
      && (s.l.pc.Load? || s.l.pc.MarkRunning? || s.l.pc.CleanTree? || s.l.pc.FailUpdate? || s.l.pc.Done?)
      && (s.l.pc.Done? ==> !s.l.pc.ending.RollbackRaised?)
  {
    hide IsClean, IdsAscend;
  }

  lemma DirtySteps(q: Request, s0: Run, r: Run, e: Event, raised: bool)
    requires Inv(q, r) && DirtyFrame(s0, r, raised) && !IsClean(s0.repo)
    ensures ValidRepo(Step(q, r, e).repo)
    ensures DirtyFrame(s0, Step(q, r, e), raised || (r.l.pc.CleanTree? && e.Raise? && e.exn.Groundtruth()))
  {
    hide Inv, Advance, IsClean, Throw, Disturbed, IdsAscend;
    InvJobId(q, r);
    if e.Go? {
      DirtyAdvances(q, s0, r, raised);
      assert Step(q, r, e) == Advance(q, r);
    } else if e.Raise? {
      assert Step(q, r, e) == Throw(Disturbed(r, e.staged, e.work), e.exn);
      DirtyThrows(s0, r, e.exn, e.staged, e.work, raised);
    } else {
      assert Step(q, r, e) == r;
    }
  }

  lemma DirtyThrows(s0: Run, r: Run, exn: Exn, staged: Tree, work: Tree, raised: bool)
    requires ValidRepo(r.repo) && DirtyFrame(s0, r, raised) && ValidRepo(s0.repo) && !IsClean(s0.repo)
    ensures var s := Throw(Disturbed(r, staged, work), exn);
      ValidRepo(s.repo) && DirtyFrame(s0, s, raised || (r.l.pc.CleanTree? && exn.Groundtruth()))
  {
    hide IsClean, IdsAscend;
  }

  lemma StatusRaisedSnoc(q: Request, s0: Run, events: seq<Event>)
    requires events != []
    ensures StatusRaised(q, s0, events) <==>
      StatusRaised(q, s0, Init(events)) || StatusRaisedAt(q, s0, events, |events| - 1)
  {
    hide Exec;
    var before := Init(events);
    forall i | 0 <= i < |before|
      ensures StatusRaisedAt(q, s0, events, i) == StatusRaisedAt(q, s0, before, i)
    {
      assert events[..i] == before[..i];
    }
  }

  lemma {:induction false} DirtyRun(q: Request, s0: Run, events: seq<Event>)
    requires Inv(q, s0) && !s0.l.checked && s0.l.pc.Load? && !IsClean(s0.repo)
    ensures Inv(q, Exec(q, s0, events))
    ensures DirtyFrame(s0, Exec(q, s0, events), StatusRaised(q, s0, events))
  {
    RunKeepsInv(q, s0, events);
    if events != [] {
      var before := Init(events);
      hide DirtyFrame, Step, IsClean;
      DirtyRun(q, s0, before);
      DirtySteps(q, s0, Exec(q, s0, before), Last(events), StatusRaised(q, s0, before));
      StatusRaisedSnoc(q, s0, events);
      assert events[..|events| - 1] == before;
      hide Inv, StatusRaised;
    } else {
      hide Inv;
    }
  }

  /** A dirty tree is never ingested into, and the unsaved edits survive a finished run
    * exactly when the status command did not itself raise: if it did, the handler rolls
    * back a tree that was never checked (the only other way out is that the rollback fails). */
  lemma UnsavedEditsSurvive(q: Request, repo: Repo, records: JobStore.Records, index: Index, events: seq<Event>)
    requires Startable(q, repo, records, index) && !IsClean(repo)
    requires var pc := Exec(q, Start(q, repo, records, index), events).l.pc;
      pc.Done? && !pc.ending.RollbackRaised?
    ensures var s0 := Start(q, repo, records, index); var r := Exec(q, s0, events);
      && !r.l.checked && r.repo.chain == repo.chain && r.index == index
      && (r.repo == repo <==> !StatusRaised(q, s0, events))
  {
    var s0 := Start(q, repo, records, index);
    StartInv(q, repo, records, index);
    DirtyRun(q, s0, events);
    OneCommitOrNone(q, repo, records, index, events);
    hide Inv, StatusRaised;
  }

  /** A foreign exception while the tree is written skips the rollback: whatever the failing
    * command left stays, with the job still marked running. */
  lemma ForeignExceptionSkipsRollback(q: Request, r: Run, exn: Exn, staged: Tree, work: Tree)
    requires Inv(q, r) && Mutates(r.l.pc) && !r.l.pc.Reset? && !r.l.pc.Clean? && !exn.Groundtruth()
    ensures var s := Step(q, r, Raise(exn, staged, work));
      && s.l.pc == Done(Escaped(exn)) && s.repo.work == work && s.repo.staged == staged
      && SameHistory(r.repo, s.repo) && q.job in s.records && s.records[q.job].state == Running
  {
    hide Inv, IdsAscend, InFlight, HistoryOk, IndexOn, Advance;
    Recoverable(q, r);
    InvJobId(q, r);
    ForeignEscapes(q, r, exn, staged, work);
    InFlightSays(q, r);
  }

  lemma InFlightSays(q: Request, r: Run)
    requires InFlight(q, r)
    ensures q.job in r.records && r.records[q.job].state == Running
  {
  }

  lemma ForeignEscapes(q: Request, r: Run, exn: Exn, staged: Tree, work: Tree)
    requires ValidRepo(r.repo) && Mutates(r.l.pc) && !r.l.pc.Reset? && !r.l.pc.Clean? && !exn.Groundtruth()
    ensures var s := Step(q, r, Raise(exn, staged, work));
      && s.l.pc == Done(Escaped(exn)) && s.repo == r.repo.(staged := staged, work := work) && s.records == r.records
  {
    hide Advance, IdsAscend;
  }
}
