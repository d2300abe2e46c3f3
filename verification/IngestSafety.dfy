/** What every reachable state of an ingest satisfies, and what its endings therefore mean. */
module IngestSafety {
  import opened Prelude
  import opened Job
  import opened Git
  import opened Frontmatter
  import opened Ingest
  import JobStore
  import Notes

  predicate KeyedById(records: JobStore.Records) {
    forall id :: id in records ==> records[id].id == id
  }

  /** The job is marked running, in the store and in the run. */
  predicate InFlight(q: Request, r: Run) {
    && q.job in r.records && r.records[q.job].state == Running
    && r.l.job.id == q.job && r.l.job.state == Running
  }

  /** Every indexed source names a commit of `chain`, made by the recorded job for it. */
  ghost predicate IndexOn(index: Index, chain: seq<Commit>) {
    forall sha :: sha in index ==> OnChain(index[sha], sha, chain)
  }

  ghost predicate OnChain(rec: SourceRecord, sha: string, chain: seq<Commit>) {
    exists c :: c in chain && c.id == rec.commit && c.origin == Some(Origin(rec.job, sha))
  }

  /** The clean-tree check passed and nothing has been changed since. */
  predicate AtBase(r: Run)
    requires ValidRepo(r.repo)
  {
    r.l.checked && r.repo.chain == r.l.base && IsClean(r.repo)
  }

  /** HEAD is one commit above the base: this job's. */
  predicate Landed(q: Request, r: Run) {
    && |r.repo.chain| == |r.l.base| + 1 && r.l.base <= r.repo.chain
    && Last(r.repo.chain).origin == Some(Origin(q.job, q.sha))
  }

  /** All or nothing, for the history. */
  predicate HistoryOk(q: Request, r: Run) {
    r.l.checked ==> r.repo.chain == r.l.base || Landed(q, r)
  }

  function BaseTree(r: Run): Tree
    requires |r.l.base| > 0
  {
    Last(r.l.base).tree
  }

  /** The batch was gated against the notes of the base. */
  predicate Gated(q: Request, r: Run) {
    |r.l.base| > 0 && Gate(q, r.l.batch, ExistingPaths(BaseTree(r)))
  }

  /** Before the first commit, with the work tree partly written. */
  predicate Writing(q: Request, r: Run)
    requires ValidRepo(r.repo)
  {
    && r.l.checked && r.repo.chain == r.l.base && r.repo.staged == HeadTree(r.repo)
    && InFlight(q, r) && q.sha !in r.index && Gated(q, r)
  }

  /** The tree the landed commit must hold: exactly the touched notes and the archive. The
    * manifest names the commit object that the amend replaced, which is on no chain. */
  ghost predicate FinalTree(q: Request, r: Run, t: Tree) {
    && |r.l.base| > 0
    && if q.archive then AmendedTree(q, r, t) else DraftTree(q, BaseTree(r), r.l.batch) == Ok(t)
  }

  ghost predicate AmendedTree(q: Request, r: Run, t: Tree)
    requires |r.l.base| > 0
  {
    exists id, draft ::
      && DraftTree(q, BaseTree(r), r.l.batch) == Ok(draft) && WithCommitId(q, draft, id) == Ok(t)
      && forall c :: c in r.repo.chain ==> c.id != id
  }

  /** The first commit is made and not yet amended. */
  predicate FirstCommit(q: Request, r: Run)
    requires ValidRepo(r.repo)
  {
    && r.l.checked && Landed(q, r) && InFlight(q, r) && q.sha !in r.index && Gated(q, r)
    && DraftTree(q, BaseTree(r), r.l.batch) == Ok(HeadTree(r.repo))
    && r.repo.staged == HeadTree(r.repo)
  }

  /** The one commit of the ingest is complete. */
  ghost predicate Complete(q: Request, r: Run)
    requires ValidRepo(r.repo)
  {
    && r.l.checked && Landed(q, r) && IsClean(r.repo) && Gated(q, r)
    && FinalTree(q, r, HeadTree(r.repo))
  }

  /** ... and indexed. */
  ghost predicate Indexed(q: Request, r: Run)
    requires ValidRepo(r.repo)
  {
    && Complete(q, r) && q.sha in r.index
    && r.index[q.sha] == IndexRecord(q, r.l.batch, Last(r.repo.chain).id)
    && r.l.commit == Last(r.repo.chain).id
  }

  /** The record of a success: of this commit, or of an earlier ingest of the same text. */
  ghost predicate Success(q: Request, r: Run, rec: JobRecord)
    requires ValidRepo(r.repo)
  {
    || (AtBase(r) && q.sha in r.index && rec.dedupOf == Some(r.index[q.sha].job)
        && rec.commitSha == Some(r.index[q.sha].commit) && rec.notesUpdated == r.index[q.sha].touched)
    || (Indexed(q, r) && rec.commitSha == Some(Last(r.repo.chain).id)
        && rec.notesCreated == Created(r.l.batch) && rec.notesUpdated == Updated(r.l.batch)
        && rec.linkDowngrades == r.l.downgrades)
  }

  ghost predicate EndOk(q: Request, r: Run, ending: Ending)
    requires ValidRepo(r.repo)
  {
    && HistoryOk(q, r)
    && match ending
       case Returned(rec) =>
         && q.job in r.records && r.records[q.job] == rec && Settled(rec.state)
         && (rec.state == Succeeded ==> Success(q, r, rec))
         && (r.l.checked ==> IsClean(r.repo))
       case Unstarted(_) => !r.l.checked
       case Reraised(exn) => exn.kind == Transient && InFlight(q, r) && IsClean(r.repo)
       case Escaped(exn) => !exn.Groundtruth() && InFlight(q, r)
       case RollbackRaised(_) => InFlight(q, r)
       case RecordRaised(_) => InFlight(q, r) && (r.l.checked ==> IsClean(r.repo))
  }

  /** Index records other than this run's, and all of them until it records its own, name
    * commits below the one it may still replace. */
  ghost predicate IndexSound(r: Run) {
    if r.l.checked && (r.l.pc.ReadHead? || r.l.pc.SetManifest? || r.l.pc.Restage? || r.l.pc.AmendHead?
                       || r.l.pc.ReadAmended? || r.l.pc.PutIndex?)
    then IndexOn(r.index, r.l.base)
    else IndexOn(r.index, r.repo.chain)
  }

  ghost predicate Inv(q: Request, r: Run) {
    && ValidRepo(r.repo) && KeyedById(r.records) && IndexSound(r)
    && match r.l.pc
       case Load => !r.l.checked
       case MarkRunning => !r.l.checked && r.l.job.id == q.job && q.job in r.records && r.records[q.job] == r.l.job
       case CleanTree => !r.l.checked && InFlight(q, r)
       case Dedup => AtBase(r) && InFlight(q, r)
       case DedupFinish => AtBase(r) && InFlight(q, r) && q.sha in r.index
       case PreSync => AtBase(r) && InFlight(q, r) && q.sha !in r.index
       case Drafting => AtBase(r) && InFlight(q, r) && q.sha !in r.index
       case WriteText => Writing(q, r) && q.archive && r.repo.work == BaseTree(r)
       case WriteManifest => Writing(q, r) && q.archive && r.repo.work == WithText(q, BaseTree(r))
       case WriteNote(i) =>
         && Writing(q, r) && i < |r.l.batch|
         && WithNotes(q, Archived(q, BaseTree(r), r.l.batch), r.l.batch[..i]) == Ok(r.repo.work)
       case Stage => Writing(q, r) && DraftTree(q, BaseTree(r), r.l.batch) == Ok(r.repo.work)
       case CommitNotes =>
         && r.l.checked && r.repo.chain == r.l.base && r.repo.staged == r.repo.work
         && InFlight(q, r) && q.sha !in r.index && Gated(q, r)
         && DraftTree(q, BaseTree(r), r.l.batch) == Ok(r.repo.work)
       case ReadHead => FirstCommit(q, r) && r.repo.work == r.repo.staged
       case SetManifest =>
         FirstCommit(q, r) && r.repo.work == r.repo.staged && q.archive
         && r.l.commit == Last(r.repo.chain).id
       case Restage =>
         FirstCommit(q, r) && q.archive && WithCommitId(q, HeadTree(r.repo), Last(r.repo.chain).id) == Ok(r.repo.work)
       case AmendHead =>
         && r.l.checked && Landed(q, r) && InFlight(q, r) && q.sha !in r.index && Gated(q, r) && q.archive
         && DraftTree(q, BaseTree(r), r.l.batch) == Ok(HeadTree(r.repo)) && r.repo.staged == r.repo.work
         && WithCommitId(q, HeadTree(r.repo), Last(r.repo.chain).id) == Ok(r.repo.work)
       case ReadAmended => Complete(q, r) && InFlight(q, r) && q.sha !in r.index
       case PutIndex => Complete(q, r) && InFlight(q, r) && q.sha !in r.index && r.l.commit == Last(r.repo.chain).id
       case PushHead => Indexed(q, r) && InFlight(q, r)
       case Finish(_) => Indexed(q, r) && InFlight(q, r)
       case Reset(after) => HistoryOk(q, r) && InFlight(q, r) && (after.ThenRaise? ==> after.exn.kind == Transient)
       case Clean(after) =>
         && HistoryOk(q, r) && InFlight(q, r) && (after.ThenRaise? ==> after.exn.kind == Transient)
         && IsClean(CleanUntracked(r.repo))
       case FailUpdate(_, _) => HistoryOk(q, r) && InFlight(q, r) && (r.l.checked ==> IsClean(r.repo))
       case Done(ending) => EndOk(q, r, ending)
  }

  // ----- the invariant is inductive -------------------------------------------------

  lemma IndexOnExtends(index: Index, chain: seq<Commit>, more: seq<Commit>)
    requires IndexOn(index, chain) && chain <= more
    ensures IndexOn(index, more)
  {
  }

  /** From anywhere after the job is marked running, an exception leaves a state to roll back. */
  lemma HandleKeepsInv(q: Request, r: Run, exn: Exn)
    requires ValidRepo(r.repo) && KeyedById(r.records) && InFlight(q, r) && HistoryOk(q, r)
    requires IndexOn(r.index, r.repo.chain)
    ensures Inv(q, Handle(r, exn))
  {
  }

  /** The stages between the clean-tree check and the end have a sound, recoverable state. */
  lemma Recoverable(q: Request, r: Run)
    requires Inv(q, r) && !r.l.pc.Load? && !r.l.pc.MarkRunning? && !r.l.pc.Done?
    ensures InFlight(q, r) && HistoryOk(q, r) && IndexOn(r.index, r.repo.chain)
  {
  }

  /** A rejected pull is caught before the common handlers ... */
  lemma PullRejectedKeepsInv(q: Request, r: Run, exn: Exn)
    requires Inv(q, r) && r.l.pc.PreSync?
    ensures Inv(q, Throw(r, exn))
  {
    hide Gate, DraftTree, FinalTree;
    HandleKeepsInv(q, r, exn);
  }

  /** ... and so is a rejected push. */
  lemma PushRejectedKeepsInv(q: Request, r: Run, exn: Exn)
    requires Inv(q, r) && r.l.pc.PushHead?
    ensures Inv(q, Throw(r, exn))
  {
    if exn.kind == GitPush {
      MovedKeepsInv(q, r, Finish(Some(exn.message)));
    } else {
      Recoverable(q, r);
      hide Inv;
      HandleKeepsInv(q, r, exn);
    }
  }

  lemma MovedKeepsInv(q: Request, r: Run, pc: Pc)
    requires Inv(q, r) && r.l.pc.PushHead? && pc.Finish?
    ensures Inv(q, Goto(r, pc))
  {
    hide Indexed, IdsAscend, KeyedById, IndexOn;
    MovedIsIndexed(q, r, pc);
  }

  lemma MovedIsIndexed(q: Request, r: Run, pc: Pc)
    requires ValidRepo(r.repo) && Indexed(q, r)
    ensures Indexed(q, Goto(r, pc))
  {
    hide Gate, FinalTree, IdsAscend;
    FinalTreeSameRun(q, r, Goto(r, pc), HeadTree(r.repo));
  }

  lemma LostKeepsInv(q: Request, r: Run, exn: Exn, staged: Tree, work: Tree)
    requires Inv(q, r)
    requires r.l.pc.Load? || r.l.pc.MarkRunning? || r.l.pc.Reset? || r.l.pc.Clean? || r.l.pc.FailUpdate?
    ensures Inv(q, Throw(Disturbed(r, staged, work), exn))
  {
    hide Gate, DraftTree, FinalTree, IdsAscend, KeyedById, IndexOn;
  }

  lemma ThrowToHandle(q: Request, r: Run, exn: Exn, staged: Tree, work: Tree)
    requires ValidRepo(r.repo) && KeyedById(r.records) && InFlight(q, r) && HistoryOk(q, r)
    requires IndexOn(r.index, r.repo.chain)
    requires !r.l.pc.Load? && !r.l.pc.MarkRunning? && !r.l.pc.PreSync? && !r.l.pc.PushHead?
    requires !r.l.pc.Reset? && !r.l.pc.Clean? && !r.l.pc.FailUpdate? && !r.l.pc.Done?
    ensures Inv(q, Throw(Disturbed(r, staged, work), exn))
  {
    hide Inv;
    HandleKeepsInv(q, Disturbed(r, staged, work), exn);
  }

  lemma ThrowKeepsInv(q: Request, r: Run, exn: Exn, staged: Tree, work: Tree)
    requires Inv(q, r)
    ensures Inv(q, Throw(Disturbed(r, staged, work), exn))
  {
    if r.l.pc.Load? || r.l.pc.MarkRunning? || r.l.pc.Reset? || r.l.pc.Clean? || r.l.pc.FailUpdate? {
      LostKeepsInv(q, r, exn, staged, work);
    } else if r.l.pc.PreSync? {
      PullRejectedKeepsInv(q, r, exn);
    } else if r.l.pc.PushHead? {
      PushRejectedKeepsInv(q, r, exn);
    } else if !r.l.pc.Done? {
      Recoverable(q, r);
      ThrowToHandle(q, r, exn, staged, work);
    }
  }

  lemma SettleKeepsInv(q: Request, r: Run, job: JobRecord, to: JobState)
    requires ValidRepo(r.repo) && KeyedById(r.records) && InFlight(q, r) && IndexOn(r.index, r.repo.chain)
    requires job.id == q.job && job.state == Running && Settled(to)
    ensures Settle(r, job, to).Ok?
    ensures var s := Settle(r, job, to).value;
      && s.repo == r.repo && s.index == r.index && s.records == r.records[q.job := job.(state := to)]
      && s.l == r.l.(pc := Done(Returned(job.(state := to)))) && KeyedById(s.records) && IndexSound(s)
  {
  }

  lemma WriteNoteKeepsInv(q: Request, r: Run)
    requires Inv(q, r) && r.l.pc.WriteNote?
    ensures Inv(q, Advance(q, r))
  {
    var i := r.l.pc.i;
    var batch := r.l.batch;
    assert Init(batch[..i + 1]) == batch[..i];
    assert i + 1 == |batch| ==> batch[..i + 1] == batch;
    match WithNote(q, r.repo.work, batch[i].note)
    case Ok(work) =>
    case Err(exn) =>
      Recoverable(q, r);
      HandleKeepsInv(q, r, exn);
  }

  lemma CommitKeepsInv(q: Request, r: Run)
    requires Inv(q, r) && r.l.pc.CommitNotes?
    ensures Inv(q, Advance(q, r))
  {
    hide Gate, DraftTree, KeyedById;
    match Committed(r.repo, Some(Origin(q.job, q.sha)))
    case Ok(repo) =>
    case Err(exn) =>
      Recoverable(q, r);
      HandleKeepsInv(q, r, exn);
  }

  lemma SetManifestKeepsInv(q: Request, r: Run)
    requires Inv(q, r) && r.l.pc.SetManifest?
    ensures Inv(q, Advance(q, r))
  {
    match WithCommitId(q, r.repo.work, r.l.commit)
    case Ok(work) =>
    case Err(exn) =>
      Recoverable(q, r);
      HandleKeepsInv(q, r, exn);
  }

  lemma AmendKeepsInv(q: Request, r: Run)
    requires Inv(q, r) && r.l.pc.AmendHead?
    ensures Inv(q, Advance(q, r))
  {
    match Amended(r.repo)
    case Ok(repo) => AmendedIsComplete(q, r, repo);
    case Err(exn) =>
      Recoverable(q, r);
      HandleKeepsInv(q, r, exn);
  }

  /** Amending replaces the first commit, whose id is then on the chain no more. */
  lemma AmendedIsComplete(q: Request, r: Run, repo: Repo)
    requires Inv(q, r) && r.l.pc.AmendHead? && Amended(r.repo) == Ok(repo)
    ensures Inv(q, Advance(q, r))
  {
    hide Gate, DraftTree, WithCommitId;
    var s := Advance(q, r);
    assert Init(r.repo.chain) == r.l.base;
    var id := Last(r.repo.chain).id;
    forall c | c in s.repo.chain
      ensures c.id != id
    {
      var k :| 0 <= k < |s.repo.chain| && s.repo.chain[k] == c;
      assert k < |s.repo.chain| - 1 ==> c == r.repo.chain[k];
    }
    assert AmendedTree(q, s, HeadTree(s.repo)) by {
      assert DraftTree(q, BaseTree(s), s.l.batch) == Ok(HeadTree(r.repo))
          && WithCommitId(q, HeadTree(r.repo), id) == Ok(HeadTree(s.repo));
    }
  }

  lemma PutIndexKeepsInv(q: Request, r: Run)
    requires Inv(q, r) && r.l.pc.PutIndex?
    ensures Inv(q, Advance(q, r))
  {
    var s := Advance(q, r);
    IndexOnExtends(r.index, r.l.base, r.repo.chain);
    assert Last(r.repo.chain) in r.repo.chain;
    forall sha | sha in s.index
      ensures OnChain(s.index[sha], sha, s.repo.chain)
    {
      if sha != q.sha {
        assert OnChain(r.index[sha], sha, r.repo.chain);
      }
    }
  }

  lemma StartingKeepsInv(q: Request, r: Run)
    requires Inv(q, r) && (r.l.pc.Load? || r.l.pc.MarkRunning?)
    ensures Inv(q, Advance(q, r))
  {
    hide IdsAscend, IndexOn, FinalTree, Gate;
  }

  lemma CheckingKeepsInv(q: Request, r: Run)
    requires Inv(q, r) && (r.l.pc.CleanTree? || r.l.pc.Dedup?)
    ensures Inv(q, Advance(q, r))
  {
    hide IdsAscend, IndexOn, FinalTree, Gate;
  }

  lemma DedupFinishKeepsInv(q: Request, r: Run)
    requires Inv(q, r) && r.l.pc.DedupFinish?
    ensures Inv(q, Advance(q, r))
  {
    hide IdsAscend, IndexOn, FinalTree;
    var prior := r.index[q.sha];
    SettleKeepsInv(q, r, r.l.job.(dedupOf := Some(prior.job), commitSha := Some(prior.commit),
      sourceSha := Some(q.sha), notesUpdated := prior.touched), Succeeded);
  }

  lemma WaitKeepsInv(q: Request, r: Run)
    requires Inv(q, r) && (r.l.pc.Done? || r.l.pc.PreSync? || r.l.pc.Drafting?)
    ensures Inv(q, Advance(q, r))
  {
    assert Advance(q, r) == r;
    hide Inv, Advance;
  }

  lemma FinishKeepsInv(q: Request, r: Run)
    requires Inv(q, r) && r.l.pc.Finish?
    ensures Inv(q, Advance(q, r))
  {
    hide Gate, DraftTree, FinalTree, Created, Updated, IdsAscend, IndexOn;
    SettleKeepsInv(q, r, r.l.job.(commitSha := Some(r.l.commit), notesCreated := Created(r.l.batch),
      notesUpdated := Updated(r.l.batch), linkDowngrades := r.l.downgrades, error := r.l.pc.pushError), Succeeded);
    var s := Advance(q, r);
    FinalTreeSameRun(q, r, s, HeadTree(r.repo));
  }

  /** The required tree depends on the base, the batch and the ids on the chain only. */
  lemma FinalTreeSameRun(q: Request, r: Run, s: Run, t: Tree)
    requires FinalTree(q, r, t)
    requires s.l.base == r.l.base && s.l.batch == r.l.batch && s.repo.chain == r.repo.chain
    ensures FinalTree(q, s, t)
  {
  }

  lemma ResetKeepsInv(q: Request, r: Run)
    requires Inv(q, r) && r.l.pc.Reset?
    ensures Inv(q, Advance(q, r))
  {
    hide Gate, DraftTree, FinalTree, IdsAscend, KeyedById, IndexOn;
    RollbackCleans(r.repo);
  }

  lemma CleanKeepsHistory(r: Repo)
    ensures SameHistory(r, CleanUntracked(r)) && CleanUntracked(r).staged == r.staged
  {
  }

  lemma CleanKeepsInv(q: Request, r: Run)
    requires Inv(q, r) && r.l.pc.Clean?
    ensures Inv(q, Advance(q, r))
  {
    CleanKeepsHistory(r.repo);
    hide Gate, FinalTree, CleanUntracked, IndexOn, Success, KeyedById, FirstCommit, Writing, Complete, Indexed,
      IdsAscend;
  }

  lemma FailUpdateKeepsInv(q: Request, r: Run)
    requires Inv(q, r) && r.l.pc.FailUpdate?
    ensures Inv(q, Advance(q, r))
  {
    hide Gate, DraftTree, FinalTree, IdsAscend, IndexOn;
    SettleKeepsInv(q, r, FailedWith(r.l.job, r.l.pc.stage, r.l.pc.message), Failed);
  }

  lemma WriteTextKeepsInv(q: Request, r: Run)
    requires Inv(q, r) && r.l.pc.WriteText?
    ensures Inv(q, Advance(q, r))
  {
  }

  lemma WriteManifestKeepsInv(q: Request, r: Run)
    requires Inv(q, r) && r.l.pc.WriteManifest?
    ensures Inv(q, Advance(q, r))
  {
    hide Touched, WithText, IdsAscend, KeyedById, IndexOn;
    assert r.l.batch[..0] == [];
  }

  lemma StageKeepsInv(q: Request, r: Run)
    requires Inv(q, r) && r.l.pc.Stage?
    ensures Inv(q, Advance(q, r))
  {
    hide Gate, DraftTree, FinalTree, IdsAscend, KeyedById, IndexOn;
  }

  lemma ReadHeadKeepsInv(q: Request, r: Run)
    requires Inv(q, r) && r.l.pc.ReadHead?
    ensures Inv(q, Advance(q, r))
  {
    hide Gate, DraftTree, IdsAscend, KeyedById, IndexOn;
  }

  lemma RestageKeepsInv(q: Request, r: Run)
    requires Inv(q, r) && r.l.pc.Restage?
    ensures Inv(q, Advance(q, r))
  {
    hide Gate, DraftTree, WithCommitId, IdsAscend, KeyedById, IndexOn;
  }

  lemma ReadAmendedKeepsInv(q: Request, r: Run)
    requires Inv(q, r) && r.l.pc.ReadAmended?
    ensures Inv(q, Advance(q, r))
  {
    hide Gate, DraftTree, WithCommitId, IdsAscend, KeyedById, IndexOn;
    FinalTreeSameRun(q, r, Advance(q, r), HeadTree(r.repo));
  }

  lemma PushKeepsInv(q: Request, r: Run)
    requires Inv(q, r) && r.l.pc.PushHead?
    ensures Inv(q, Advance(q, r))
  {
    PushAdvances(q, r);
    hide Advance, Inv;
    MovedKeepsInv(q, r, Finish(None));
  }

  lemma PushAdvances(q: Request, r: Run)
    requires ValidRepo(r.repo) && r.l.pc.PushHead?
    ensures Advance(q, r) == Goto(r, Finish(None))
  {
  }

  lemma ValidOfInv(q: Request, r: Run)
    requires Inv(q, r)
    ensures ValidRepo(r.repo)
  {
  }

  lemma AdvanceKeepsInv(q: Request, r: Run)
    requires Inv(q, r)
    ensures Inv(q, Advance(q, r))
  {
    ValidOfInv(q, r);
    hide Inv, Advance;
    match r.l.pc
    case Done(_) => WaitKeepsInv(q, r);
    case PreSync => WaitKeepsInv(q, r);
    case Drafting => WaitKeepsInv(q, r);
    case WriteNote(_) => WriteNoteKeepsInv(q, r);
    case CommitNotes => CommitKeepsInv(q, r);
    case SetManifest => SetManifestKeepsInv(q, r);
    case AmendHead => AmendKeepsInv(q, r);
    case PutIndex => PutIndexKeepsInv(q, r);
    case Finish(_) => FinishKeepsInv(q, r);
    case Load => StartingKeepsInv(q, r);
    case MarkRunning => StartingKeepsInv(q, r);
    case CleanTree => CheckingKeepsInv(q, r);
    case Dedup => CheckingKeepsInv(q, r);
    case DedupFinish => DedupFinishKeepsInv(q, r);
    case Reset(_) => ResetKeepsInv(q, r);
    case Clean(_) => CleanKeepsInv(q, r);
    case FailUpdate(_, _) => FailUpdateKeepsInv(q, r);
    case WriteText => WriteTextKeepsInv(q, r);
    case WriteManifest => WriteManifestKeepsInv(q, r);
    case Stage => StageKeepsInv(q, r);
    case ReadHead => ReadHeadKeepsInv(q, r);
    case Restage => RestageKeepsInv(q, r);
    case ReadAmended => ReadAmendedKeepsInv(q, r);
    case PushHead => PushKeepsInv(q, r);
  }

  lemma DraftingKeepsInv(q: Request, r: Run, batch: seq<Draft>, downgrades: map<string, seq<string>>)
    requires Inv(q, r) && r.l.pc.Drafting?
    ensures Inv(q, StepDrafting(q, r, batch, downgrades))
  {
    assert batch[..0] == [];
    HandleKeepsInv(q, r, Exn(Terminal, "rejected"));
  }

  lemma StepKeepsInv(q: Request, r: Run, e: Event)
    requires Inv(q, r)
    ensures Inv(q, Step(q, r, e))
  {
    match e
    case Go => AdvanceKeepsInv(q, r);
    case Fetched(trees) =>
      if r.l.pc.PreSync? {
        FastForwardStaysClean(r.repo, trees);
        IndexOnExtends(r.index, r.repo.chain, FastForwarded(r.repo, trees).chain);
      }
    case Drafted(batch, downgrades) =>
      if r.l.pc.Drafting? {
        DraftingKeepsInv(q, r, batch, downgrades);
      }
    case StageFailed(_, _) =>
    case Raise(exn, staged, work) => ThrowKeepsInv(q, r, exn, staged, work);
  }
}
