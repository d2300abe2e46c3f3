/** Whole histories: jobs on different vaults interleave step by step, users edit and commit
  * between jobs, the process crashes anywhere and restarts. */
module Histories {
  import opened Prelude
  import opened Job
  import opened Git
  import opened Ingest
  import opened IngestSafety
  import opened IngestTheorems
  import opened Recovery
  import opened Crashes
  import JobStore

  datatype Active = Active(q: Request, l: Local)

  datatype VaultState = VaultState(repo: Repo, index: Index, active: Option<Active>)

  /** All vaults of a process with its job records. `used` maps every job id that ever
    * started to its vault, which is the one its record names. */
  datatype World = World(vaults: map<string, VaultState>, records: JobStore.Records, used: map<string, string>)

  datatype WorldEvent =
    | Submit(id: string, vault: string)
    | Begin(q: Request)
    | Progress(vault: string, e: Event)
    | Leave(vault: string)                                   // `run` returned or raised
    | GiveUp(id: string, stage: string, message: string)     // the worker fails an unfinished record
    | Edit(vault: string, staged: Tree, work: Tree)          // by the user, between jobs
    | UserCommit(vault: string, tree: Tree)
    | Crash(left: map<string, (Tree, Tree)>)
    | Restart(swept: set<string>, repos: map<string, Repo>, raised: set<string>)

  ghost function RunOf(w: World, v: string): Run
    requires v in w.vaults && w.vaults[v].active.Some?
  {
    Run(w.vaults[v].repo, w.records, w.vaults[v].index, w.vaults[v].active.value.l)
  }

  ghost function WithRun(w: World, v: string, q: Request, s: Run): World {
    World(w.vaults[v := VaultState(s.repo, s.index, Some(Active(q, s.l)))], s.records, w.used)
  }

  predicate Idle(w: World, v: string) { v in w.vaults && w.vaults[v].active.None? }

  /** The vault is idle, and the id is new or has run on this vault before. */
  predicate MayBegin(w: World, q: Request) {
    Idle(w, q.vault) && (q.job in w.used ==> w.used[q.job] == q.vault)
  }

  /** The job is being run on some vault. */
  ghost predicate InProgress(w: World, id: string) {
    exists v :: v in w.vaults && w.vaults[v].active.Some? && w.vaults[v].active.value.q.job == id
  }

  /** What a crash leaves of one vault. */
  ghost function CrashedVault(w: World, v: string, left: map<string, (Tree, Tree)>): VaultState
    requires v in w.vaults
  {
    var s := w.vaults[v];
    if s.active.None? || v !in left then s.(active := None)
    else s.(active := None, repo := Crashed(RunOf(w, v), left[v].0, left[v].1))
  }

  ghost predicate RestartOk(w: World, swept: set<string>, repos: map<string, Repo>, raised: set<string>) {
    && (forall v :: v in w.vaults ==> w.vaults[v].active.None? && ValidRepo(w.vaults[v].repo))
    && (forall id :: id in swept ==> id in w.records && Settled(w.records[id].state))
    && repos.Keys == w.vaults.Keys
    && forall v :: v in w.vaults ==>
         RepoDone(w.vaults[v].repo, repos[v], Hit(w.records, w.records.Keys, v), v in raised)
  }

  function RestartedRecords(records: JobStore.Records, swept: set<string>): JobStore.Records {
    map id | id in records && id !in swept ::
      if records[id].state == Running then Interrupted(records[id]) else records[id]
  }

  /** One event; an event that is not possible changes nothing. */
  ghost function Next(w: World, e: WorldEvent): World {
    match e
    case Submit(id, vault) =>
      if id in w.records then w else w.(records := w.records[id := NewJob(id, vault)])
    case Begin(q) =>
      if MayBegin(w, q) then
        w.(vaults := w.vaults[q.vault := w.vaults[q.vault].(active := Some(Active(q, Fresh(q))))],
           used := w.used[q.job := q.vault])
      else w
    case Progress(v, event) =>
      if v in w.vaults && w.vaults[v].active.Some? then
        WithRun(w, v, w.vaults[v].active.value.q, Step(w.vaults[v].active.value.q, RunOf(w, v), event))
      else w
    case Leave(v) =>
      if v in w.vaults && w.vaults[v].active.Some? && w.vaults[v].active.value.l.pc.Done? then
        w.(vaults := w.vaults[v := w.vaults[v].(active := None)])
      else w
    case GiveUp(id, stage, message) =>
      if id in w.records && !Settled(w.records[id].state) && !InProgress(w, id) then
        w.(records := w.records[id := FailedWith(w.records[id], stage, message).(state := Failed)])
      else w
    case Edit(v, staged, work) =>
      if Idle(w, v) then
        w.(vaults := w.vaults[v := w.vaults[v].(repo := w.vaults[v].repo.(staged := staged, work := work))])
      else w
    case UserCommit(v, tree) =>
      if Idle(w, v) && ValidRepo(w.vaults[v].repo) then
        w.(vaults := w.vaults[v := w.vaults[v].(repo := FastForwarded(w.vaults[v].repo, [tree]))])
      else w
    case Crash(left) =>
      w.(vaults := map v | v in w.vaults :: CrashedVault(w, v, left))
    case Restart(swept, repos, raised) =>
      if RestartOk(w, swept, repos, raised) then
        w.(vaults := map v | v in w.vaults :: w.vaults[v].(repo := repos[v]),
           records := RestartedRecords(w.records, swept))
      else w
  }

  ghost function Later(w: World, events: seq<WorldEvent>): World {
    if events == [] then w else Next(Later(w, Init(events)), Last(events))
  }

  // ----- the invariant --------------------------------------------------------------

  /** Every ingest commit was made by a job of this vault. */
  predicate CommitsAreOwned(chain: seq<Commit>, used: map<string, string>, v: string) {
    forall i :: 0 <= i < |chain| && chain[i].origin.Some? ==>
      chain[i].origin.value.job in used && used[chain[i].origin.value.job] == v
  }

  ghost predicate ActiveInv(w: World, v: string)
    requires v in w.vaults && w.vaults[v].active.Some?
  {
    var q := w.vaults[v].active.value.q;
    && q.vault == v && q.job in w.used && w.used[q.job] == v
    && Inv(q, RunOf(w, v))
  }

  ghost predicate VaultInv(w: World, v: string)
    requires v in w.vaults
  {
    var s := w.vaults[v];
    && ValidRepo(s.repo) && CommitsAreOwned(s.repo.chain, w.used, v)
    && IndexOn(s.index, s.repo.chain)
    && (s.active.Some? ==> ActiveInv(w, v))
  }

  ghost predicate WorldInv(w: World) {
    KeyedById(w.records) && forall v :: v in w.vaults ==> VaultInv(w, v)
  }

  // ----- one step of one job --------------------------------------------------------

  predicate SameBase(r: Run, s: Run) { s.l.checked == r.l.checked && s.l.base == r.l.base }

  predicate SameOrigins(a: seq<Commit>, b: seq<Commit>) {
    |a| == |b| && forall i :: 0 <= i < |a| ==> a[i].origin == b[i].origin
  }

  /** The history as it was, except that HEAD may have been amended. */
  predicate Stayed(r: Run, s: Run) {
    SameOrigins(r.repo.chain, s.repo.chain) && SameBase(r, s)
  }

  predicate PassedCheck(r: Run, s: Run) {
    s.repo.chain == r.repo.chain && !r.l.checked && s.l.checked && s.l.base == r.repo.chain
  }

  predicate Pulled(r: Run, s: Run) {
    && r.l.checked && r.repo.chain == r.l.base
    && s.l.checked && s.l.base == s.repo.chain && r.repo.chain <= s.repo.chain
    && forall i :: |r.repo.chain| <= i < |s.repo.chain| ==> s.repo.chain[i].origin.None?
  }

  predicate MadeCommit(q: Request, r: Run, s: Run) {
    && r.l.checked && r.repo.chain == r.l.base && SameBase(r, s) && q.sha !in r.index
    && |s.repo.chain| == |r.repo.chain| + 1 && r.repo.chain <= s.repo.chain
    && Last(s.repo.chain).origin == Some(Origin(q.job, q.sha))
  }

  predicate Moved(q: Request, r: Run, s: Run) {
    Stayed(r, s) || PassedCheck(r, s) || Pulled(r, s) || MadeCommit(q, r, s)
  }

  /** The index gains this text at most, and nothing recorded is replaced. */
  predicate IndexGrows(q: Request, before: Index, after: Index) {
    || after == before
    || (q.sha !in before && q.sha in after && after == before[q.sha := after[q.sha]])
  }

  lemma SameMoves(q: Request, r: Run, s: Run)
    requires s.repo.chain == r.repo.chain && SameBase(r, s)
    ensures Moved(q, r, s)
  {
  }

  lemma CommitMoves(q: Request, r: Run)
    requires Inv(q, r) && r.l.pc.CommitNotes?
    ensures Moved(q, r, Advance(q, r))
  {
    hide Gate, DraftTree, KeyedById, IndexOn, IdsAscend;
  }

  lemma AmendKeepsOrigins(r: Repo)
    requires ValidRepo(r) && Amended(r).Ok?
    ensures SameOrigins(r.chain, Amended(r).value.chain)
  {
  }

  lemma AmendMoves(q: Request, r: Run)
    requires Inv(q, r) && r.l.pc.AmendHead?
    ensures Moved(q, r, Advance(q, r))
  {
    InvJobId(q, r);
    hide Inv, IdsAscend, Amended, SameOrigins;
    if Amended(r.repo).Ok? {
      AmendKeepsOrigins(r.repo);
    } else {
      SameMoves(q, r, Advance(q, r));
    }
  }

  lemma CheckMoves(q: Request, r: Run)
    requires Inv(q, r) && r.l.pc.CleanTree?
    ensures Moved(q, r, Advance(q, r))
  {
  }

  lemma AdvanceMoves(q: Request, r: Run)
    requires Inv(q, r)
    ensures Moved(q, r, Advance(q, r))
  {
    InvJobId(q, r);
    hide Inv, Advance, Moved, IdsAscend;
    if r.l.pc.CommitNotes? {
      CommitMoves(q, r);
    } else if r.l.pc.AmendHead? {
      AmendMoves(q, r);
    } else if r.l.pc.CleanTree? {
      CheckMoves(q, r);
    } else {
      AdvanceKeepsChain(q, r);
      AdvanceKeepsBase(q, r);
      SameMoves(q, r, Advance(q, r));
    }
  }

  lemma AdvanceGrowsIndex(q: Request, r: Run)
    requires Inv(q, r)
    ensures IndexGrows(q, r.index, Advance(q, r).index) && SameOthers(q, r, Advance(q, r))
  {
    hide Inv, Advance, IdsAscend, IndexRecord;
    InvJobId(q, r);
    if r.l.pc.PutIndex? {
      AdvanceIndexes(q, r);
    } else {
      AdvanceKeepsIndex(q, r);
    }
    if Records(r.l.pc) {
      AdvanceFramesRecords(q, r);
    } else {
      AdvanceKeepsRecords(q, r);
    }
  }

  lemma FetchMoves(q: Request, r: Run, trees: seq<Tree>)
    requires Inv(q, r) && r.l.pc.PreSync?
    ensures var s := StepPreSync(r, trees); Moved(q, r, s) && IndexGrows(q, r.index, s.index) && SameOthers(q, r, s)
  {
  }

  lemma RaiseMoves(q: Request, r: Run, exn: Exn, staged: Tree, work: Tree)
    requires ValidRepo(r.repo)
    ensures var s := Throw(Disturbed(r, staged, work), exn);
      Moved(q, r, s) && IndexGrows(q, r.index, s.index) && SameOthers(q, r, s)
  {
    DisturbedKeeps(r, staged, work);
    ThrowOnlyMoves(Disturbed(r, staged, work), exn);
    hide Throw, Disturbed, IdsAscend;
  }

  /** What one step of a job can do to its vault's history, its index and the records. */
  lemma StepMoves(q: Request, r: Run, e: Event)
    requires Inv(q, r)
    ensures var s := Step(q, r, e); Moved(q, r, s) && IndexGrows(q, r.index, s.index) && SameOthers(q, r, s)
  {
    InvJobId(q, r);
    hide Inv, Advance, Throw, Moved, Disturbed, IdsAscend, Gate;
    match e
    case Go =>
      AdvanceMoves(q, r);
      AdvanceGrowsIndex(q, r);
    case Raise(exn, staged, work) => RaiseMoves(q, r, exn, staged, work);
    case Fetched(trees) =>
      if r.l.pc.PreSync? {
        FetchMoves(q, r, trees);
      } else {
        SameMoves(q, r, r);
      }
    case _ =>
      DraftingOnlyMoves(q, r, e);
      SameMoves(q, r, Step(q, r, e));
  }

  /** A job is not affected by what happens to other jobs' records. */
  lemma InvIgnoresOthers(q: Request, r: Run, records: JobStore.Records)
    requires Inv(q, r) && KeyedById(records)
    requires q.job in r.records ==> q.job in records && records[q.job] == r.records[q.job]
    ensures Inv(q, r.(records := records))
  {
    hide FinalTree, Gate, IdsAscend, IndexOn, DraftTree, WithCommitId;
    if FinalTree(q, r, HeadTree(r.repo)) {
      FinalTreeSameRun(q, r, r.(records := records), HeadTree(r.repo));
    }
  }

  // ----- the invariant is inductive -------------------------------------------------

  lemma MoveKeepsOwned(q: Request, r: Run, s: Run, used: map<string, string>, v: string)
    requires Moved(q, r, s) && CommitsAreOwned(r.repo.chain, used, v) && q.job in used && used[q.job] == v
    ensures CommitsAreOwned(s.repo.chain, used, v)
  {
  }

  lemma InvIsSound(q: Request, r: Run)
    requires Inv(q, r)
    ensures ValidRepo(r.repo) && KeyedById(r.records) && IndexOn(r.index, r.repo.chain)
  {
  }

  predicate Extends(a: map<string, string>, b: map<string, string>) {
    forall id :: id in a ==> id in b && b[id] == a[id]
  }

  /** A vault that an event leaves alone, its running job's record included. */
  lemma VaultUnaffected(w: World, t: World, v: string)
    requires v in w.vaults && v in t.vaults && t.vaults[v] == w.vaults[v] && VaultInv(w, v)
    requires Extends(w.used, t.used) && KeyedById(t.records)
    requires w.vaults[v].active.Some? ==> var id := w.vaults[v].active.value.q.job;
      id in w.records ==> id in t.records && t.records[id] == w.records[id]
    ensures VaultInv(t, v)
  {
    if w.vaults[v].active.Some? {
      InvIgnoresOthers(w.vaults[v].active.value.q, RunOf(w, v), t.records);
      assert RunOf(t, v) == RunOf(w, v).(records := t.records);
    }
    hide Inv, IndexOn, KeyedById, IdsAscend;
  }

  lemma ProgressKeepsInv(w: World, v: string, e: Event)
    requires WorldInv(w) && v in w.vaults && w.vaults[v].active.Some?
    ensures WorldInv(Next(w, Progress(v, e)))
  {
    hide Inv, Step, Moved, CommitsAreOwned, IndexGrows, IdsAscend, IndexOn, KeyedById;
    var q := w.vaults[v].active.value.q;
    var r := RunOf(w, v);
    assert VaultInv(w, v);
    var s := Step(q, r, e);
    StepKeepsInv(q, r, e);
    StepMoves(q, r, e);
    MoveKeepsOwned(q, r, s, w.used, v);
    InvIsSound(q, s);
    var t := Next(w, Progress(v, e));
    assert t.vaults[v] == VaultState(s.repo, s.index, Some(Active(q, s.l))) && RunOf(t, v) == s;
    forall u | u in t.vaults
      ensures VaultInv(t, u)
    {
      assert VaultInv(w, u);
      if u != v {
        VaultUnaffected(w, t, u);
      }
    }
  }

  lemma BeginKeepsInv(w: World, q: Request)
    requires WorldInv(w) && MayBegin(w, q)
    ensures WorldInv(Next(w, Begin(q)))
  {
    hide Inv, IndexOn, IdsAscend;
    var t := Next(w, Begin(q));
    var s := w.vaults[q.vault];
    assert VaultInv(w, q.vault);
    StartInv(q, s.repo, w.records, s.index);
    assert RunOf(t, q.vault) == Start(q, s.repo, w.records, s.index);
    forall u | u in t.vaults
      ensures VaultInv(t, u)
    {
      assert VaultInv(w, u);
      if u != q.vault {
        VaultUnaffected(w, t, u);
      }
    }
  }

  /** Events that change no running job: records may change, vaults only while idle. */
  lemma QuietKeepsInv(w: World, t: World)
    requires WorldInv(w) && KeyedById(t.records) && t.used == w.used && t.vaults.Keys == w.vaults.Keys
    requires forall v :: v in w.vaults ==>
      if w.vaults[v].active.Some? && t.vaults[v].active.Some?
      then t.vaults[v] == w.vaults[v] && RecordKept(w, t, w.vaults[v].active.value.q.job)
      else t.vaults[v].active.None? && t.vaults[v].index == w.vaults[v].index && ValidRepo(t.vaults[v].repo)
           && OnlyForeign(w.vaults[v].repo.chain, t.vaults[v].repo.chain)
    ensures WorldInv(t)
  {
    hide Inv, KeyedById, IdsAscend, OnlyForeign;
    forall v | v in t.vaults
      ensures VaultInv(t, v)
    {
      assert VaultInv(w, v);
      if w.vaults[v].active.Some? && t.vaults[v].active.Some? {
        VaultUnaffected(w, t, v);
      } else {
        ForeignKeepsOwned(w.vaults[v].repo.chain, t.vaults[v].repo.chain, w.used, v);
        OnlyForeignExtends(w.vaults[v].repo.chain, t.vaults[v].repo.chain);
        IndexOnExtends(w.vaults[v].index, w.vaults[v].repo.chain, t.vaults[v].repo.chain);
      }
      hide IndexOn, CommitsAreOwned;
    }
  }

  predicate RecordKept(w: World, t: World, id: string) {
    id in w.records ==> id in t.records && t.records[id] == w.records[id]
  }

  /** The chain, then commits no ingest made. */
  predicate OnlyForeign(a: seq<Commit>, b: seq<Commit>) {
    a <= b && forall i :: |a| <= i < |b| ==> b[i].origin.None?
  }

  lemma OnlyForeignExtends(a: seq<Commit>, b: seq<Commit>)
    requires OnlyForeign(a, b)
    ensures a <= b
  {
  }

  lemma ForeignKeepsOwned(a: seq<Commit>, b: seq<Commit>, used: map<string, string>, v: string)
    requires OnlyForeign(a, b) && CommitsAreOwned(a, used, v)
    ensures CommitsAreOwned(b, used, v)
  {
  }

  lemma OnlyForeignSame(a: seq<Commit>)
    ensures OnlyForeign(a, a)
  {
  }

  lemma WorldInvIsValid(w: World)
    requires WorldInv(w)
    ensures KeyedById(w.records) && forall v :: v in w.vaults ==> ValidRepo(w.vaults[v].repo)
  {
  }

  lemma SettingRecordsKeepsInv(w: World, e: WorldEvent)
    requires WorldInv(w) && (e.Submit? || e.GiveUp?)
    ensures WorldInv(Next(w, e))
  {
    hide WorldInv, IdsAscend, OnlyForeign, FailedWith;
    WorldInvIsValid(w);
    var t := Next(w, e);
    forall v | v in w.vaults
      ensures OnlyForeign(w.vaults[v].repo.chain, t.vaults[v].repo.chain)
    {
      OnlyForeignSame(w.vaults[v].repo.chain);
    }
    forall v | v in w.vaults && w.vaults[v].active.Some?
      ensures RecordKept(w, t, w.vaults[v].active.value.q.job)
    {
    }
    RecordSetIsKeyed(w, e);
    hide KeyedById;
    QuietKeepsInv(w, t);
  }

  lemma RecordSetIsKeyed(w: World, e: WorldEvent)
    requires KeyedById(w.records) && (e.Submit? || e.GiveUp?)
    ensures KeyedById(Next(w, e).records)
  {
  }

  /** Events between jobs, and those that end all of them. */
  predicate Quiet(e: WorldEvent) { e.Leave? || e.Edit? || e.UserCommit? || e.Crash? || e.Restart? }

  lemma QuietRecords(w: World, e: WorldEvent)
    requires KeyedById(w.records) && Quiet(e)
    ensures var t := Next(w, e); KeyedById(t.records) && t.used == w.used && t.vaults.Keys == w.vaults.Keys
    ensures !e.Restart? ==> Next(w, e).records == w.records
  {
    hide RestartOk, CrashedVault, FastForwarded, IdsAscend;
  }

  lemma QuietActive(w: World, e: WorldEvent, v: string)
    requires Quiet(e) && v in w.vaults && v in Next(w, e).vaults && Next(w, e).vaults[v].active.Some?
    ensures Next(w, e).vaults[v] == w.vaults[v] && (e.Restart? ==> Next(w, e) == w)
  {
  }

  lemma QuietEventKeepsInv(w: World, e: WorldEvent)
    requires WorldInv(w) && Quiet(e)
    ensures WorldInv(Next(w, e))
  {
    hide Next, WorldInv, IdsAscend, KeyedById, OnlyForeign;
    WorldInvIsValid(w);
    QuietRecords(w, e);
    var t := Next(w, e);
    forall v | v in w.vaults
      ensures ValidRepo(t.vaults[v].repo) && OnlyForeign(w.vaults[v].repo.chain, t.vaults[v].repo.chain)
      ensures t.vaults[v].index == w.vaults[v].index
      ensures t.vaults[v].active.Some? ==>
        t.vaults[v] == w.vaults[v] && RecordKept(w, t, w.vaults[v].active.value.q.job)
    {
      QuietVault(w, e, v);
      if t.vaults[v].active.Some? {
        QuietActive(w, e, v);
      }
    }
    QuietKeepsInv(w, t);
  }

  lemma NextKeepsInv(w: World, e: WorldEvent)
    requires WorldInv(w)
    ensures WorldInv(Next(w, e))
  {
    hide WorldInv, Step, RestartOk, IdsAscend;
    match e
    case Begin(q) =>
      if MayBegin(w, q) {
        BeginKeepsInv(w, q);
      }
    case Progress(v, event) =>
      if v in w.vaults && w.vaults[v].active.Some? {
        ProgressKeepsInv(w, v, event);
      }
    case Submit(_, _) => SettingRecordsKeepsInv(w, e);
    case GiveUp(_, _, _) => SettingRecordsKeepsInv(w, e);
    case _ => QuietEventKeepsInv(w, e);
  }

  lemma {:induction false} AfterKeepsInv(w: World, events: seq<WorldEvent>)
    requires WorldInv(w)
    ensures WorldInv(Later(w, events))
  {
    if events == [] {
    } else {
      AfterKeepsInv(w, Init(events));
      NextKeepsInv(Later(w, Init(events)), Last(events));
    }
  }

  // ----- the theorems ---------------------------------------------------------------

  /** A first start: vaults with any history that is not an ingest's, nothing indexed. */
  ghost predicate FirstStart(w: World) {
    && w.records == map[] && w.used == map[]
    && forall v :: v in w.vaults ==>
      && ValidRepo(w.vaults[v].repo) && w.vaults[v].index == map[] && w.vaults[v].active.None?
      && forall i :: 0 <= i < |w.vaults[v].repo.chain| ==> w.vaults[v].repo.chain[i].origin.None?
  }

  lemma FirstStartInv(w: World)
    requires FirstStart(w)
    ensures WorldInv(w)
  {
    forall v | v in w.vaults
      ensures VaultInv(w, v)
    {
    }
  }

  /** Over any interleaving of jobs, second runs of a job, pulls, failures, edits, crashes and
    * restarts: every indexed hash names a commit on its vault's chain made for that text by
    * the recorded job, and no job id has commits on two vaults. */
  lemma IndexIsAlwaysSound(w: World, events: seq<WorldEvent>)
    requires FirstStart(w)
    ensures var t := Later(w, events);
      && (forall v :: v in t.vaults ==> IndexOn(t.vaults[v].index, t.vaults[v].repo.chain))
      && forall u, v :: u in t.vaults && v in t.vaults && u != v ==>
           NoSharedJob(t.vaults[u].repo.chain, t.vaults[v].repo.chain)
  {
    FirstStartInv(w);
    AfterKeepsInv(w, events);
    var t := Later(w, events);
    hide Inv, FirstStart, IndexOn, IdsAscend;
    forall v | v in t.vaults
      ensures IndexOn(t.vaults[v].index, t.vaults[v].repo.chain)
    {
      assert VaultInv(t, v);
    }
    forall u, v | u in t.vaults && v in t.vaults && u != v
      ensures NoSharedJob(t.vaults[u].repo.chain, t.vaults[v].repo.chain)
    {
      assert VaultInv(t, u) && VaultInv(t, v);
    }
  }

  predicate NoSharedJob(a: seq<Commit>, b: seq<Commit>) {
    forall i, j :: 0 <= i < |a| && 0 <= j < |b| && a[i].origin.Some? && b[j].origin.Some? ==>
      a[i].origin.value.job != b[j].origin.value.job
  }

  // ----- an indexed text is never committed again -----------------------------------

  /** How many commits of the chain were made for the text with this hash. */
  function Count(chain: seq<Commit>, sha: string): nat {
    if chain == [] then 0
    else if Last(chain).origin.Some? && Last(chain).origin.value.sha == sha then Count(Init(chain), sha) + 1
    else Count(Init(chain), sha)
  }

  lemma {:induction false} CountOfSameOrigins(a: seq<Commit>, b: seq<Commit>, sha: string)
    requires SameOrigins(a, b)
    ensures Count(a, sha) == Count(b, sha)
  {
    if a == [] {
    } else {
      CountOfSameOrigins(Init(a), Init(b), sha);
    }
  }

  lemma {:induction false} CountOfExtension(a: seq<Commit>, b: seq<Commit>, sha: string)
    requires a <= b
    requires forall i :: |a| <= i < |b| ==> b[i].origin.None? || b[i].origin.value.sha != sha
    ensures Count(a, sha) == Count(b, sha)
  {
    if |a| == |b| {
      assert a == b;
    } else {
      CountOfExtension(a, Init(b), sha);
    }
  }

  lemma MoveKeepsCount(q: Request, r: Run, s: Run, sha: string)
    requires Moved(q, r, s) && sha in r.index
    ensures Count(s.repo.chain, sha) == Count(r.repo.chain, sha)
  {
    if Stayed(r, s) {
      CountOfSameOrigins(r.repo.chain, s.repo.chain, sha);
    } else {
      CountOfExtension(r.repo.chain, s.repo.chain, sha);
    }
  }

  lemma NextKeepsIndexed(w: World, e: WorldEvent, v: string, sha: string)
    requires WorldInv(w) && v in w.vaults && sha in w.vaults[v].index
    ensures var t := Next(w, e);
      && v in t.vaults && sha in t.vaults[v].index && t.vaults[v].index[sha] == w.vaults[v].index[sha]
      && Count(t.vaults[v].repo.chain, sha) == Count(w.vaults[v].repo.chain, sha)
  {
    WorldInvIsValid(w);
    var t := Next(w, e);
    if e.Progress? && e.vault == v && w.vaults[v].active.Some? {
      assert VaultInv(w, v);
      hide Inv, Step, Moved, Count, IdsAscend, SameOthers;
      var q := w.vaults[v].active.value.q;
      StepMoves(q, RunOf(w, v), e.e);
      MoveKeepsCount(q, RunOf(w, v), Step(q, RunOf(w, v), e.e), sha);
    } else {
      QuietVault(w, e, v);
      hide WorldInv, Next, Count, IdsAscend;
      CountOfExtension(w.vaults[v].repo.chain, t.vaults[v].repo.chain, sha);
    }
  }

  /** Apart from a step of its own job, an event adds foreign commits to a vault at most. */
  lemma QuietVault(w: World, e: WorldEvent, v: string)
    requires v in w.vaults && ValidRepo(w.vaults[v].repo)
    requires !(e.Progress? && e.vault == v && w.vaults[v].active.Some?)
    ensures var t := Next(w, e);
      && v in t.vaults && t.vaults[v].index == w.vaults[v].index
      && OnlyForeign(w.vaults[v].repo.chain, t.vaults[v].repo.chain) && ValidRepo(t.vaults[v].repo)
  {
    hide Step, IdsAscend, RolledBack, Hit, RestartedRecords;
    OnlyForeignSame(w.vaults[v].repo.chain);
  }

  /** Once a text is indexed it stays so, with the same record, and is never committed again. */
  lemma {:induction false} IndexedTextIsNeverCommittedAgain(w: World, events: seq<WorldEvent>, v: string, sha: string)
    requires WorldInv(w) && v in w.vaults && sha in w.vaults[v].index
    ensures var t := Later(w, events);
      && v in t.vaults && sha in t.vaults[v].index && t.vaults[v].index[sha] == w.vaults[v].index[sha]
      && Count(t.vaults[v].repo.chain, sha) == Count(w.vaults[v].repo.chain, sha)
  {
    hide WorldInv, Next, Count;
    if events == [] {
    } else {
      IndexedTextIsNeverCommittedAgain(w, Init(events), v, sha);
      AfterKeepsInv(w, Init(events));
      NextKeepsIndexed(Later(w, Init(events)), Last(events), v, sha);
    }
  }

  // ----- startup recovery is the restart event ---------------------------------------

  /** The idle world's state as recovery sees it. */
  ghost predicate Seen(w: World, a: State) {
    && a.rows.records == w.records && a.repos.Keys == w.vaults.Keys
    && forall v :: v in w.vaults ==> w.vaults[v].active.None? && a.repos[v] == w.vaults[v].repo
  }

  lemma SweptHits(a: State, retention: nat, now: nat, v: string)
    requires Consistent(a)
    ensures var m := Swept(a, retention, now);
      Hit(m.rows.records, AllIds(m), v) <==> Hit(a.rows.records, a.rows.records.Keys, v)
  {
  }

  /** Whatever `recover_on_startup` does is one restart event, so the theorems cover it. */
  lemma RecoveryIsRestart(w: World, a: State, b: State, retention: nat, raised: set<string>, now: nat, to: nat)
    requires Seen(w, a) && Consistent(a) && Recovered(a, b, retention, raised, now, to)
    ensures var swept := a.rows.records.Keys - b.rows.records.Keys; var t := Next(w, Restart(swept, b.repos, raised));
      RestartOk(w, swept, b.repos, raised) && Seen(t, b)
  {
    hide RepoDone, Hit, Interrupted, IdsAscend, AllIds, RowDone, RestartedRecords;
    var swept := a.rows.records.Keys - b.rows.records.Keys;
    forall v | v in w.vaults
      ensures RepoDone(w.vaults[v].repo, b.repos[v], Hit(w.records, w.records.Keys, v), v in raised)
    {
      SweptHits(a, retention, now, v);
    }
    RestartRecords(a, b, retention, raised, now, to);
  }

  lemma RestartRecords(a: State, b: State, retention: nat, raised: set<string>, now: nat, to: nat)
    requires Consistent(a) && Recovered(a, b, retention, raised, now, to)
    ensures RestartedRecords(a.rows.records, a.rows.records.Keys - b.rows.records.Keys) == b.rows.records
  {
    hide RepoDone, Hit, Interrupted, IdsAscend, AllIds;
    var m := Swept(a, retention, now);
    forall id | id in b.rows.records
      ensures b.rows.records[id]
        == if a.rows.records[id].state == Running then Interrupted(a.rows.records[id]) else a.rows.records[id]
    {
      assert RowDone(m.rows, b.rows, AllIds(m), now, to, id);
      AllIdsHolds(m, id);
    }
  }

  lemma AllIdsHolds(m: State, id: string)
    requires id in m.rows.records
    ensures id in AllIds(m)
  {
  }
}
