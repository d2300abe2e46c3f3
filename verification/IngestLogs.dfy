/** What the components of an ingest log, event by event, and what a run means in which none
  * of them logs a failure. */
module IngestLogs {
  import opened Prelude
  import opened Job
  import opened Git
  import opened Ingest
  import opened IngestSafety
  import opened IngestTheorems
  import opened IngestProgress
  import JobStore

  /** What came of the drafting of a run, and the work tree it drafted against. */
  datatype Upshot = Upshot(work: Tree, event: Event)

  /** The failures of git, of the job store and of the index, what pulls fetched, the histories
    * that pushes offered, and what drafting came to. */
  datatype Logs = Logs(
    git: seq<Exn>, store: seq<Exn>, index: seq<Exn>,
    pulls: seq<seq<Tree>>, pushes: seq<seq<Commit>>, drafts: seq<Upshot>)

  /** The stages that read or write a job record. */
  predicate Stores(pc: Pc) {
    pc.Load? || pc.MarkRunning? || pc.DedupFinish? || pc.Finish? || pc.FailUpdate?
  }

  /** What one event adds to the logs: an exception is a failure of the component that its stage
    * calls. */
  function Noted(l: Logs, r: Run, e: Event): Logs {
    if r.l.pc.Drafting? then
      if e.Go? || e.Fetched? then l else l.(drafts := l.drafts + [Upshot(r.repo.work, e)])
    else
      match e
      case Go => if r.l.pc.PushHead? then l.(pushes := l.pushes + [r.repo.chain]) else l
      case Fetched(trees) => if r.l.pc.PreSync? then l.(pulls := l.pulls + [trees]) else l
      case Raise(exn, _, _) =>
        if Stores(r.l.pc) then l.(store := l.store + [exn])
        else if r.l.pc.Dedup? || r.l.pc.PutIndex? then l.(index := l.index + [exn])
        else if r.l.pc.PushHead? then l.(git := l.git + [exn], pushes := l.pushes + [r.repo.chain])
        else if r.l.pc.Done? then l
        else l.(git := l.git + [exn])
      case _ => l
  }

  /** The stages at which only git or the work tree can fail. */
  predicate Gits(pc: Pc) {
    !Stores(pc) && !pc.Dedup? && !pc.PutIndex? && !pc.PushHead? && !pc.Done? && !pc.Drafting?
  }

  lemma RaiseIsLogged(l: Logs, r: Run, exn: Exn, staged: Tree, work: Tree)
    ensures var n := Noted(l, r, Raise(exn, staged, work));
      && (Gits(r.l.pc) ==> n == l.(git := l.git + [exn]))
      && (Stores(r.l.pc) ==> n == l.(store := l.store + [exn]))
      && (r.l.pc.Dedup? || r.l.pc.PutIndex? ==> n == l.(index := l.index + [exn]))
  {
  }

  lemma DraftingIsLogged(l: Logs, r: Run, e: Event)
    requires r.l.pc.Drafting? && !e.Go? && !e.Fetched?
    ensures Noted(l, r, e) == l.(drafts := l.drafts + [Upshot(r.repo.work, e)])
  {
  }

  lemma GoIsNotLogged(l: Logs, r: Run)
    requires !r.l.pc.PushHead?
    ensures Noted(l, r, Go) == l
  {
  }

  ghost function NotedAll(q: Request, l: Logs, r: Run, events: seq<Event>): Logs {
    if events == [] then l
    else Noted(NotedAll(q, l, r, Init(events)), Exec(q, r, Init(events)), Last(events))
  }

  lemma OneEvent(q: Request, l: Logs, r: Run, e: Event)
    ensures Exec(q, r, [e]) == Step(q, r, e) && NotedAll(q, l, r, [e]) == Noted(l, r, e)
  {
    hide Step, Noted;
    assert Init([e]) == [];
  }

  lemma OneMoreEvent(q: Request, l: Logs, r: Run, events: seq<Event>, e: Event)
    ensures Exec(q, r, events + [e]) == Step(q, Exec(q, r, events), e)
    ensures NotedAll(q, l, r, events + [e]) == Noted(NotedAll(q, l, r, events), Exec(q, r, events), e)
  {
    hide Step, Noted;
    assert Init(events + [e]) == events;
  }

  lemma {:induction false} MoreEvents(q: Request, l: Logs, r: Run, a: seq<Event>, b: seq<Event>)
    ensures Exec(q, r, a + b) == Exec(q, Exec(q, r, a), b)
    ensures NotedAll(q, l, r, a + b) == NotedAll(q, NotedAll(q, l, r, a), Exec(q, r, a), b)
  {
    hide Step, Noted;
    ExecConcat(q, r, a, b);
    if b == [] {
      assert a + b == a;
    } else {
      assert Init(a + b) == a + Init(b) && Last(a + b) == Last(b);
      MoreEvents(q, l, r, a, Init(b));
    }
  }

  /** A rollback that succeeds logs nothing. */
  lemma RollbackIsQuiet(q: Request, l: Logs, r: Run, after: After)
    requires ValidRepo(r.repo) && r.l.pc == Reset(after)
    ensures NotedAll(q, l, r, [Go, Go]) == l
  {
    OneEvent(q, l, r, Go);
    OneMoreEvent(q, l, r, [Go], Go);
    assert [Go] + [Go] == [Go, Go];
    RollbackSteps(q, r, after);
    hide Step, Exec, NotedAll;
  }

  // ----- runs without a failure -----------------------------------------------------

  predicate NoFailure(a: Logs, b: Logs) { a.git == b.git && a.store == b.store && a.index == b.index }

  /** No log shrinks. */
  predicate Extends(a: Logs, b: Logs) { a.git <= b.git && a.store <= b.store && a.index <= b.index }

  lemma {:induction false} LogsGrow(q: Request, l: Logs, r: Run, events: seq<Event>)
    ensures Extends(l, NotedAll(q, l, r, events))
  {
    hide Exec;
    if events == [] {
    } else {
      LogsGrow(q, l, r, Init(events));
    }
  }

  lemma NoFailureBefore(l0: Logs, l: Logs, r: Run, e: Event)
    requires Extends(l0, l) && NoFailure(l0, Noted(l, r, e))
    ensures NoFailure(l0, l)
  {
  }

  /** The history a run drafts against: HEAD, or what the pull made of it. */
  function BaseOfRun(q: Request, repo: Repo, a: Logs, b: Logs): Repo
    requires ValidRepo(repo)
  {
    FastForwarded(repo, if q.autoPush && |b.pulls| > |a.pulls| then Last(b.pulls) else [])
  }

  /** A batch was drafted, and it can be written and changes something. */
  ghost predicate Good(q: Request, o: Upshot) {
    && o.event.Drafted? && VaultReadable(q.y, o.work) && Gate(q, o.event.batch, ExistingPaths(o.work))
    && Writable(q, o.work, o.event.batch)
  }

  /** Drafting is behind it, and came to `o` on the run's base. */
  ghost predicate Drew(q: Request, s0: Run, l0: Logs, l: Logs, o: Upshot)
    requires ValidRepo(s0.repo)
  {
    l.drafts == l0.drafts + [o] && o.work == HeadTree(BaseOfRun(q, s0.repo, l0, l))
  }

  predicate Past(pc: Pc) { Writes(pc) || Late(pc) }

  /** A run in which nothing failed before drafting, nor after a good batch. */
  ghost predicate OnTrack(q: Request, s0: Run, l0: Logs, r: Run, l: Logs)
    requires ValidRepo(s0.repo)
  {
    if r.l.pc.Load? then r == s0 && l.drafts == l0.drafts && l.pulls == l0.pulls
    else if Early(r.l.pc) || r.l.pc.PreSync? then
      && r.repo == s0.repo && r.index == s0.index && l.drafts == l0.drafts && l.pulls == l0.pulls
      && !r.l.pc.DedupFinish? && (r.l.pc.MarkRunning? ==> r.l.job.state == Queued) && (r.l.pc.PreSync? ==> q.autoPush)
    else if r.l.pc.Drafting? then
      r.repo == BaseOfRun(q, s0.repo, l0, l) && l.drafts == l0.drafts
    else
      && Past(r.l.pc) && (exists o :: Drew(q, s0, l0, l, o))
      && (Good(q, Last(l.drafts)) ==> GoesWell(q, r) && r.l.base == BaseOfRun(q, s0.repo, l0, l).chain)
  }

  ghost predicate GoesWell(q: Request, r: Run) {
    if Writes(r.l.pc) then CanWrite(q, r) else EndsWell(r.l.pc)
  }

  /** A clean vault, a job still queued or new, and a text not indexed yet. */
  ghost predicate Untouched(q: Request, s0: Run) {
    && Inv(q, s0) && s0.l.pc.Load? && MayRun(q, s0.records) && IsClean(s0.repo) && q.sha !in s0.index
  }

  lemma IsUntouched(q: Request, repo: Repo, records: JobStore.Records, index: Index)
    requires Startable(q, repo, records, index) && IsClean(repo) && MayRun(q, records) && q.sha !in index
    ensures Untouched(q, Start(q, repo, records, index))
  {
    StartInv(q, repo, records, index);
    hide Inv, IsClean;
  }

  lemma StartsOnTrack(q: Request, s0: Run, l0: Logs)
    requires Untouched(q, s0)
    ensures OnTrack(q, s0, l0, s0, l0)
  {
  }

  /** Outside drafting, what is no exception and no step of the stage is ignored. */
  lemma IgnoredOrGo(q: Request, l: Logs, r: Run, e: Event)
    requires ValidRepo(r.repo) && !r.l.pc.Drafting? && !e.Raise? && !(e.Fetched? && r.l.pc.PreSync?)
    ensures Noted(l, r, e).drafts == l.drafts && Noted(l, r, e).pulls == l.pulls
    ensures Step(q, r, e) == (if e.Go? then Advance(q, r) else r)
  {
    hide Advance;
  }

  lemma NothingRaised(l0: Logs, l: Logs, r: Run, e: Event)
    requires Extends(l0, l) && NoFailure(l0, Noted(l, r, e)) && !r.l.pc.Drafting? && !r.l.pc.Done?
    ensures !e.Raise?
  {
  }

  lemma EarlyStaysOnTrack(q: Request, s0: Run, l0: Logs, r: Run, l: Logs, e: Event)
    requires Untouched(q, s0) && Inv(q, r) && OnTrack(q, s0, l0, r, l)
    requires Extends(l0, l) && NoFailure(l0, Noted(l, r, e)) && Early(r.l.pc)
    ensures OnTrack(q, s0, l0, Step(q, r, e), Noted(l, r, e))
  {
    NothingRaised(l0, l, r, e);
    ValidOfInv(q, r);
    IgnoredOrGo(q, l, r, e);
    BaseWithoutPull(q, s0.repo, l0, l);
    hide Inv, Noted, Advance, IsClean, BaseOfRun;
    if e.Go? {
      match r.l.pc
      case Load => Begins(q, r);
      case MarkRunning => Marks(q, r);
      case CleanTree => Checks(q, r);
      case Dedup => LooksUp(q, r);
    }
  }

  lemma BaseWithoutPull(q: Request, repo: Repo, a: Logs, b: Logs)
    requires ValidRepo(repo) && (!q.autoPush || b.pulls == a.pulls)
    ensures BaseOfRun(q, repo, a, b) == repo
  {
  }

  lemma PullStaysOnTrack(q: Request, s0: Run, l0: Logs, r: Run, l: Logs, e: Event)
    requires Untouched(q, s0) && Inv(q, r) && OnTrack(q, s0, l0, r, l)
    requires Extends(l0, l) && NoFailure(l0, Noted(l, r, e)) && r.l.pc.PreSync?
    ensures OnTrack(q, s0, l0, Step(q, r, e), Noted(l, r, e))
  {
    NothingRaised(l0, l, r, e);
    ValidOfInv(q, r);
    if e.Fetched? {
      Pulls(q, r, e.trees);
      hide Inv, Step, FastForwarded;
    } else {
      IgnoredOrGo(q, l, r, e);
      hide Inv, Noted, Step, BaseOfRun;
    }
  }

  lemma DraftingStaysOnTrack(q: Request, s0: Run, l0: Logs, r: Run, l: Logs, e: Event)
    requires Untouched(q, s0) && Inv(q, r) && OnTrack(q, s0, l0, r, l) && r.l.pc.Drafting?
    ensures OnTrack(q, s0, l0, Step(q, r, e), Noted(l, r, e))
  {
    ValidOfInv(q, r);
    AtBaseSays(q, r);
    DraftingMoves(q, r, e);
    SameBase(q, s0, l0, l, r, e);
    OnTrackSays(q, s0, l0, r, l);
    hide *;
    if e.Go? || e.Fetched? {
    } else {
      var o := Upshot(r.repo.work, e);
      if Good(q, o) {
        GoodSays(q, o);
        Drafts(q, r, e.batch, e.downgrades);
        CanWriteGoesWell(q, Step(q, r, e));
      }
      DrewIsOnTrack(q, s0, l0, Step(q, r, e), Noted(l, r, e), l.drafts, o);
    }
  }

  lemma OnTrackSays(q: Request, s0: Run, l0: Logs, r: Run, l: Logs)
    requires ValidRepo(s0.repo) && OnTrack(q, s0, l0, r, l) && r.l.pc.Drafting?
    ensures r.repo == BaseOfRun(q, s0.repo, l0, l) && l.drafts == l0.drafts
  {
  }

  lemma GoodSays(q: Request, o: Upshot)
    requires Good(q, o)
    ensures o.event.Drafted? && VaultReadable(q.y, o.work) && Gate(q, o.event.batch, ExistingPaths(o.work))
    ensures Writable(q, o.work, o.event.batch) && o.event.batch != []
  {
    hide VaultReadable, Writable;
  }

  lemma CanWriteGoesWell(q: Request, r: Run)
    requires CanWrite(q, r) && (r.l.pc.WriteText? || r.l.pc.WriteNote?)
    ensures GoesWell(q, r)
  {
  }

  lemma DrewIsOnTrack(q: Request, s0: Run, l0: Logs, r: Run, l: Logs, drafts: seq<Upshot>, o: Upshot)
    requires ValidRepo(s0.repo) && Past(r.l.pc) && drafts == l0.drafts && l.drafts == drafts + [o]
    requires o.work == HeadTree(BaseOfRun(q, s0.repo, l0, l))
    requires Good(q, o) ==> GoesWell(q, r) && r.l.base == BaseOfRun(q, s0.repo, l0, l).chain
    ensures OnTrack(q, s0, l0, r, l)
  {
    hide Good, GoesWell, BaseOfRun;
    assert Drew(q, s0, l0, l, o) && Last(l.drafts) == o;
  }

  lemma AtBaseSays(q: Request, r: Run)
    requires Inv(q, r) && r.l.pc.Drafting?
    ensures r.repo.work == HeadTree(r.repo) && r.l.base == r.repo.chain
  {
  }

  lemma DraftingMoves(q: Request, r: Run, e: Event)
    requires ValidRepo(r.repo) && r.l.pc.Drafting?
    ensures e.Go? || e.Fetched? ==> Step(q, r, e) == r
    ensures Step(q, r, e).l.base == r.l.base
    ensures !e.Go? && !e.Fetched? ==> Past(Step(q, r, e).l.pc)
  {
    ThrowOnlyMoves(r, Exn(Terminal, ""));
    hide Gate, VaultReadable;
  }

  lemma SameBase(q: Request, s0: Run, l0: Logs, l: Logs, r: Run, e: Event)
    requires ValidRepo(s0.repo) && r.l.pc.Drafting?
    ensures BaseOfRun(q, s0.repo, l0, Noted(l, r, e)) == BaseOfRun(q, s0.repo, l0, l)
    ensures Noted(l, r, e).drafts == if e.Go? || e.Fetched? then l.drafts else l.drafts + [Upshot(r.repo.work, e)]
  {
  }

  /** Past drafting nothing is drafted or pulled any more. */
  lemma PastSteps(q: Request, l: Logs, r: Run, e: Event)
    requires ValidRepo(r.repo) && Past(r.l.pc)
    ensures Past(Step(q, r, e).l.pc) && SameTerms(r, Step(q, r, e))
    ensures Noted(l, r, e).drafts == l.drafts && Noted(l, r, e).pulls == l.pulls
  {
    if e.Go? {
      AdvanceKeepsBase(q, r);
      PastGoesOn(q, r);
    } else if e.Raise? {
      DisturbedOnlyRepo(r, e.staged, e.work);
      ThrowOnlyMoves(Disturbed(r, e.staged, e.work), e.exn);
    }
    hide Advance, Throw, Disturbed;
  }

  lemma DisturbedOnlyRepo(r: Run, staged: Tree, work: Tree)
    ensures Disturbed(r, staged, work).l == r.l
  {
  }

  lemma PastGoesOn(q: Request, r: Run)
    requires ValidRepo(r.repo) && Past(r.l.pc)
    ensures Past(Advance(q, r).l.pc)
  {
    if Late(r.l.pc) || r.l.pc.PutIndex? {
      AdvanceStaysLate(q, r);
      hide Advance;
    }
  }

  lemma WellGoesOn(q: Request, r: Run, e: Event)
    requires Inv(q, r) && Past(r.l.pc) && GoesWell(q, r) && (e.Raise? ==> r.l.pc.Done?) && Past(Step(q, r, e).l.pc)
    ensures GoesWell(q, Step(q, r, e))
  {
    ValidOfInv(q, r);
    if Writes(r.l.pc) {
      WritingGoesWell(q, r, e);
    } else {
      DoneStays(q, r, e);
    }
    hide Inv, Step;
  }

  lemma DoneStays(q: Request, r: Run, e: Event)
    requires ValidRepo(r.repo) && r.l.pc.Done?
    ensures Step(q, r, e) == r
  {
  }

  lemma WritingGoesWell(q: Request, r: Run, e: Event)
    requires Inv(q, r) && Writes(r.l.pc) && CanWrite(q, r) && !e.Raise?
    ensures GoesWell(q, Step(q, r, e))
  {
    ValidOfInv(q, r);
    NotDrafting(r.l.pc);
    IgnoredOrGo(q, Logs([], [], [], [], [], []), r, e);
    StageGoesOn(q, r);
    if e.Go? {
      var s := Advance(q, r);
      GoesOnSays(q, r, s);
    }
    hide Inv, Step, Advance, CanWrite, GoesOn;
  }

  lemma NotDrafting(pc: Pc)
    requires Writes(pc)
    ensures !pc.Drafting? && !pc.PreSync? && !pc.Done?
  {
  }

  lemma PastStaysOnTrack(q: Request, s0: Run, l0: Logs, r: Run, l: Logs, e: Event)
    requires Untouched(q, s0) && Inv(q, r) && OnTrack(q, s0, l0, r, l) && Past(r.l.pc)
    requires Extends(l0, l) && NoFailure(l0, Noted(l, r, e))
    ensures OnTrack(q, s0, l0, Step(q, r, e), Noted(l, r, e))
  {
    ValidOfInv(q, r);
    PastSteps(q, l, r, e);
    PastSays(q, s0, l0, r, l);
    if !r.l.pc.Done? {
      NothingRaised(l0, l, r, e);
    }
    if Good(q, Last(l.drafts)) {
      WellGoesOn(q, r, e);
    }
    SameBaseOf(q, s0.repo, l0, l, Noted(l, r, e));
    DrewIsOnTrack(q, s0, l0, Step(q, r, e), Noted(l, r, e), l0.drafts, Last(l.drafts));
    hide *;
  }

  lemma PastSays(q: Request, s0: Run, l0: Logs, r: Run, l: Logs)
    requires ValidRepo(s0.repo) && OnTrack(q, s0, l0, r, l) && Past(r.l.pc)
    ensures l.drafts != [] && l.drafts == l0.drafts + [Last(l.drafts)] && !r.l.pc.Drafting?
    ensures Last(l.drafts).work == HeadTree(BaseOfRun(q, s0.repo, l0, l))
    ensures Good(q, Last(l.drafts)) ==> GoesWell(q, r) && r.l.base == BaseOfRun(q, s0.repo, l0, l).chain
  {
    hide Good, GoesWell, BaseOfRun;
  }

  lemma SameBaseOf(q: Request, repo: Repo, a: Logs, b: Logs, c: Logs)
    requires ValidRepo(repo) && c.pulls == b.pulls
    ensures BaseOfRun(q, repo, a, c) == BaseOfRun(q, repo, a, b)
  {
  }

  lemma {:induction false} QuietSoFar(q: Request, s0: Run, l0: Logs, events: seq<Event>)
    requires Untouched(q, s0) && NoFailure(l0, NotedAll(q, l0, s0, events))
    ensures OnTrack(q, s0, l0, Exec(q, s0, events), NotedAll(q, l0, s0, events))
  {
    if events == [] {
      StartsOnTrack(q, s0, l0);
    } else {
      var r, l, e := Exec(q, s0, Init(events)), NotedAll(q, l0, s0, Init(events)), Last(events);
      LogsGrow(q, l0, s0, Init(events));
      NoFailureBefore(l0, l, r, e);
      QuietSoFar(q, s0, l0, Init(events));
      UntouchedSays(q, s0);
      RunKeepsInv(q, s0, Init(events));
      WhereItIs(q, s0, l0, r, l);
      hide Exec, NotedAll, Step, Noted, OnTrack, Inv, Untouched, Past, Early, Extends, NoFailure;
      if Early(r.l.pc) {
        EarlyStaysOnTrack(q, s0, l0, r, l, e);
      } else if r.l.pc.PreSync? {
        PullStaysOnTrack(q, s0, l0, r, l, e);
      } else if r.l.pc.Drafting? {
        DraftingStaysOnTrack(q, s0, l0, r, l, e);
      } else {
        PastStaysOnTrack(q, s0, l0, r, l, e);
      }
    }
  }

  lemma UntouchedSays(q: Request, s0: Run)
    requires Untouched(q, s0)
    ensures Inv(q, s0) && ValidRepo(s0.repo) && s0.l.pc.Load? && q.sha !in s0.index
  {
    hide IndexSound, KeyedById;
  }

  lemma WhereItIs(q: Request, s0: Run, l0: Logs, r: Run, l: Logs)
    requires ValidRepo(s0.repo) && OnTrack(q, s0, l0, r, l)
    ensures Early(r.l.pc) || r.l.pc.PreSync? || r.l.pc.Drafting? || Past(r.l.pc)
  {
    hide Good, GoesWell, BaseOfRun, Drew;
  }

  /** What a finished run came to: it drafted once, against HEAD or what the pull made of it,
    * and a good batch ended in one commit on top of that and a success. */
  ghost predicate DraftedAndCommitted(q: Request, repo: Repo, a: Logs, b: Logs, chain: seq<Commit>, ending: Ending)
    requires ValidRepo(repo)
  {
    var base := BaseOfRun(q, repo, a, b);
    && |b.drafts| == |a.drafts| + 1 && a.drafts <= b.drafts && Last(b.drafts).work == HeadTree(base)
    && (Good(q, Last(b.drafts)) ==>
          && ending.Returned? && ending.record.state == Succeeded
          && base.chain <= chain && |chain| == |base.chain| + 1
          && Last(chain).origin == Some(Origin(q.job, q.sha)))
  }

  /** A run of a clean vault on a fresh text in which no component logged a failure. */
  lemma QuietRunsCommit(q: Request, s0: Run, l0: Logs, events: seq<Event>)
    requires Untouched(q, s0) && NoFailure(l0, NotedAll(q, l0, s0, events)) && Exec(q, s0, events).l.pc.Done?
    ensures ValidRepo(s0.repo)
    ensures var r := Exec(q, s0, events);
      DraftedAndCommitted(q, s0.repo, l0, NotedAll(q, l0, s0, events), r.repo.chain, r.l.pc.ending)
  {
    QuietSoFar(q, s0, l0, events);
    var r, l := Exec(q, s0, events), NotedAll(q, l0, s0, events);
    UntouchedSays(q, s0);
    RunKeepsFrame(q, s0, events);
    hide Exec, NotedAll, Step, Untouched, Inv, OnTrack, Good, BaseOfRun, CanWrite, Frame;
    PastSays(q, s0, l0, r, l);
    if EndsWell(r.l.pc) {
      SuccessLanded(q, s0, r);
    }
  }

  lemma SuccessLanded(q: Request, s0: Run, r: Run)
    requires Inv(q, r) && Frame(q, s0, r) && q.sha !in s0.index && EndsWell(r.l.pc)
    ensures Landed(q, r)
  {
    hide IdsAscend, FinalTree, IndexOn, KeyedById, Gate, BaseFrom;
  }
}
