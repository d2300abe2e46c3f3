/** Restart recovery: interrupted jobs are failed and their vaults rolled back, never resumed. */
module Recovery {
  import opened Prelude
  import opened Job
  import opened Git
  import opened Ordering
  import JobStore

  datatype State = State(rows: JobStore.Rows, corrupt: set<string>, repos: map<string, Repo>)

  function Interrupted(rec: JobRecord): JobRecord {
    FailedWith(rec, "restart", "not resumed").(state := Failed)
  }

  function RolledBack(r: Repo): Repo
    requires ValidRepo(r)
  {
    if IsClean(r) then r else CleanUntracked(ResetHard(r))
  }

  predicate IsRunning(records: JobStore.Records, id: string) {
    id in records && records[id].state == Running
  }

  /** One of the ids was running on the vault. */
  predicate Hit(records: JobStore.Records, done: set<string>, vault: string) {
    exists id :: id in done && IsRunning(records, id) && records[id].vault == vault
  }

  predicate RepoDone(a: Repo, b: Repo, hit: bool, raised: bool)
    requires ValidRepo(a)
  {
    && SameHistory(a, b)
    && (!hit || IsClean(a) ==> b == a)
    && (hit && !raised ==> b == RolledBack(a))
  }

  predicate RowDone(a: JobStore.Rows, b: JobStore.Rows, done: set<string>, from: nat, to: nat, id: string)
    requires id in a.records && id in a.stamps && id in b.records && id in b.stamps
  {
    if id in done && a.records[id].state == Running then
      && b.records[id] == Interrupted(a.records[id])
      && from <= b.stamps[id].updated <= to
      && b.stamps[id] == a.stamps[id].(updated := b.stamps[id].updated)
    else b.records[id] == a.records[id] && b.stamps[id] == a.stamps[id]
  }

  predicate Consistent(s: State) {
    && s.rows.records.Keys == s.rows.stamps.Keys && s.rows.records.Keys !! s.corrupt
    && (forall vault :: vault in s.repos ==> ValidRepo(s.repos[vault]))
    && forall id :: id in s.rows.records ==> s.rows.records[id].id == id
  }

  /** `b` is `a` after the ids in `done` were reconciled between the times `from` and `to`;
    * `raised` are the vaults on which a git command raised. */
  predicate Reconciled(a: State, b: State, done: set<string>, raised: set<string>, from: nat, to: nat)
    requires Consistent(a)
  {
    && b.rows.records.Keys == b.rows.stamps.Keys == a.rows.records.Keys
    && (forall id :: id in a.rows.records ==> RowDone(a.rows, b.rows, done, from, to, id))
    && b.corrupt == a.corrupt - done
    && b.repos.Keys == a.repos.Keys
    && forall vault :: vault in a.repos ==>
         RepoDone(a.repos[vault], b.repos[vault], Hit(a.rows.records, done, vault), vault in raised)
  }

  function Swept(s: State, retention: nat, now: nat): State {
    s.(rows := JobStore.Apply(s.rows, JobStore.Op.Sweep(retention), now))
  }

  function AllIds(s: State): set<string> { s.rows.records.Keys + s.corrupt }

  /** Startup recovery as a whole, `now` being the time of the sweep and `to` the end. */
  predicate Recovered(a: State, b: State, retention: nat, raised: set<string>, now: nat, to: nat)
    requires Consistent(a)
  {
    Reconciled(Swept(a, retention, now), b, AllIds(Swept(a, retention, now)), raised, now, to)
  }

  // ----- what recovery guarantees ---------------------------------------------------

  /** From any state a crash can leave: no job is running any more, nothing unreadable is
    * left, no history moved, every interrupted job's vault is clean unless git itself failed
    * on it, every other vault and every queued or terminal record is as it was. */
  lemma RecoverySettlesEverything(a: State, b: State, retention: nat, raised: set<string>, now: nat, to: nat)
    requires Consistent(a) && Recovered(a, b, retention, raised, now, to)
    ensures Consistent(b) && b.corrupt == {}
    ensures forall id :: id in b.rows.records ==> b.rows.records[id].state != Running
    ensures forall id :: id in a.rows.records && !Settled(a.rows.records[id].state) ==> id in b.rows.records
    ensures forall id :: id in b.rows.records ==>
      id in a.rows.records && (a.rows.records[id].state != Running ==> b.rows.records[id] == a.rows.records[id])
    ensures forall vault :: vault in a.repos ==> vault in b.repos && SameHistory(a.repos[vault], b.repos[vault])
    ensures forall id :: IsRunning(a.rows.records, id) && a.rows.records[id].vault in a.repos ==>
      a.rows.records[id].vault in raised || IsClean(b.repos[a.rows.records[id].vault])
    ensures forall vault :: vault in a.repos && !Hit(a.rows.records, a.rows.records.Keys, vault) ==>
      b.repos[vault] == a.repos[vault]
  {
    var m := Swept(a, retention, now);
    forall id | id in b.rows.records
      ensures b.rows.records[id].id == id && b.rows.records[id].state != Running
    {
      assert RowDone(m.rows, b.rows, AllIds(m), now, to, id);
    }
    forall id | IsRunning(a.rows.records, id) && a.rows.records[id].vault in a.repos
      ensures a.rows.records[id].vault in raised || IsClean(b.repos[a.rows.records[id].vault])
    {
      var vault := a.rows.records[id].vault;
      assert IsRunning(m.rows.records, id) && id in AllIds(m);
      assert Hit(m.rows.records, AllIds(m), vault);
      assert RepoDone(m.repos[vault], b.repos[vault], true, vault in raised);
      RollbackCleans(m.repos[vault]);
    }
    forall vault | vault in a.repos && !Hit(a.rows.records, a.rows.records.Keys, vault)
      ensures b.repos[vault] == a.repos[vault]
    {
      assert !Hit(m.rows.records, AllIds(m), vault);
      assert RepoDone(m.repos[vault], b.repos[vault], false, vault in raised);
    }
  }

  /** At a fixed time, recovering twice is recovering once, whatever git did the first time. */
  lemma RecoveringTwiceIsOnce(a: State, b: State, c: State, retention: nat, raised: set<string>, again: set<string>,
                              now: nat)
    requires Consistent(a) && Recovered(a, b, retention, raised, now, now)
    requires Consistent(b) && Recovered(b, c, retention, again, now, now)
    ensures c == b
  {
    hide IdsAscend, RolledBack, IsClean, JobStore.IsExpired;
    var m := Swept(a, retention, now);
    NothingMoreToSweep(a, b, retention, raised, now);
    var n := Swept(b, retention, now);
    assert n == b;
    forall id | id in b.rows.records
      ensures id in c.rows.records && id in c.rows.stamps
      ensures c.rows.records[id] == b.rows.records[id] && c.rows.stamps[id] == b.rows.stamps[id]
    {
      assert RowDone(m.rows, b.rows, AllIds(m), now, now, id);
      assert RowDone(n.rows, c.rows, AllIds(n), now, now, id);
    }
    forall vault | vault in b.repos
      ensures c.repos[vault] == b.repos[vault]
    {
      assert !Hit(n.rows.records, AllIds(n), vault) by {
        forall id | id in AllIds(n) && id in n.rows.records
          ensures n.rows.records[id].state != Running
        {
          assert RowDone(m.rows, b.rows, AllIds(m), now, now, id);
        }
      }
      assert RepoDone(n.repos[vault], c.repos[vault], false, vault in again);
    }
    assert c.rows.records == b.rows.records && c.rows.stamps == b.rows.stamps;
    assert c.corrupt == b.corrupt && c.repos == b.repos;
  }

  lemma NothingMoreToSweep(a: State, b: State, retention: nat, raised: set<string>, now: nat)
    requires Consistent(a) && Recovered(a, b, retention, raised, now, now)
    ensures Swept(b, retention, now) == b && b.corrupt == {}
  {
    var m := Swept(a, retention, now);
    forall id | id in b.rows.records
      ensures !JobStore.IsExpired(b.rows.records, b.rows.stamps, retention, now, id)
    {
      assert RowDone(m.rows, b.rows, AllIds(m), now, now, id);
      assert !JobStore.IsExpired(a.rows.records, a.rows.stamps, retention, now, id);
    }
    assert JobStore.Expired(b.rows.records, b.rows.stamps, retention, now) == {};
    assert b.rows.records - {} == b.rows.records && b.rows.stamps - {} == b.rows.stamps;
  }

  // ----- the startup loop -----------------------------------------------------------

  datatype Report = Report(
    swept: set<string>, requeued: seq<string>, interrupted: seq<string>,
    quarantined: seq<string>, rolledBack: seq<string>)

  /** The ids whose record is in the given state, in the order they are listed. */
  function InState(records: JobStore.Records, ids: seq<string>, state: JobState): seq<string> {
    if ids == [] then []
    else if Last(ids) in records && records[Last(ids)].state == state
      then InState(records, Init(ids), state) + [Last(ids)]
    else InState(records, Init(ids), state)
  }

  function Unreadable(corrupt: set<string>, ids: seq<string>): seq<string> {
    if ids == [] then []
    else if Last(ids) in corrupt then Unreadable(corrupt, Init(ids)) + [Last(ids)]
    else Unreadable(corrupt, Init(ids))
  }

  ghost function RepoStates(repos: map<string, GitRepo>): (r: map<string, Repo>)
    reads repos.Values
    ensures r.Keys == repos.Keys
    ensures forall vault :: vault in repos ==> r[vault] == repos[vault].repo
  {
    map vault | vault in repos :: repos[vault].repo
  }

  /** No history moved. */
  predicate SameHistories(a: map<string, Repo>, b: map<string, Repo>) {
    a.Keys == b.Keys && forall vault :: vault in a ==> SameHistory(a[vault], b[vault])
  }

  ghost function FailuresOf(repos: map<string, GitRepo>): (r: map<string, seq<Exn>>)
    reads repos.Values
    ensures r.Keys == repos.Keys
    ensures forall vault :: vault in repos ==> r[vault] == repos[vault].failures
  {
    map vault | vault in repos :: repos[vault].failures
  }

  /** The vaults on which a git command raised are those whose log of failures grew. */
  predicate RaisedOn(before: map<string, seq<Exn>>, after: map<string, seq<Exn>>, raised: set<string>) {
    && after.Keys == before.Keys && raised <= before.Keys
    && forall vault :: vault in before ==>
         before[vault] <= after[vault] && (vault in raised <==> after[vault] != before[vault])
  }

  lemma RaisedOnMore(a: map<string, seq<Exn>>, b: map<string, seq<Exn>>, c: map<string, seq<Exn>>,
                     raised: set<string>, more: set<string>)
    requires RaisedOn(a, b, raised) && RaisedOn(b, c, more)
    ensures RaisedOn(a, c, raised + more)
  {
  }

  ghost function Snapshot(store: JobStore.JobStore, repos: map<string, GitRepo>): State
    reads store`records, store`stamps, store`corrupt, repos.Values
  {
    State(JobStore.Rows(store.records, store.stamps), store.corrupt, RepoStates(repos))
  }

  ghost predicate Ready(store: JobStore.JobStore, repos: map<string, GitRepo>)
    reads store`records, store`stamps, store`corrupt, store`clock, repos.Values
  {
    store.Valid() && Apart(repos)
  }

  /** Each vault has a repository of its own. */
  ghost predicate Apart(repos: map<string, GitRepo>)
    reads repos.Values
  {
    && (forall vault :: vault in repos ==> ValidRepo(repos[vault].repo))
    && forall v, w :: v in repos && w in repos && v != w ==> repos[v] != repos[w]
  }

  /** Rolls an interrupted job's repository back if it is dirty; git errors are swallowed, and
    * nothing else counts as raised. */
  method Rollback(repo: GitRepo) returns (rolled: bool, ghost raised: bool)
    requires ValidRepo(repo.repo)
    modifies repo`repo, repo`failures
    ensures SameHistory(old(repo.repo), repo.repo)
    ensures old(repo.failures) <= repo.failures && (raised <==> repo.failures != old(repo.failures))
    ensures !raised ==> repo.repo == RolledBack(old(repo.repo)) && rolled == !IsClean(old(repo.repo))
    ensures raised ==> !rolled
    ensures IsClean(old(repo.repo)) ==> repo.repo == old(repo.repo)
  {
    var clean := repo.Clean();
    if clean.Err? || clean.value {
      return false, clean.Err?;
    }
    var done := repo.Rollback();
    rolled, raised := done.Ok?, done.Err?;
  }

  /** What reconciling one more id makes of the state. */
  predicate OneMore(b: State, c: State, id: string, raised: set<string>, from: nat, to: nat)
    requires forall vault :: vault in b.repos ==> ValidRepo(b.repos[vault])
  {
    if id in b.corrupt then c == b.(corrupt := b.corrupt - {id})
    else if !IsRunning(b.rows.records, id) then c == b
    else
      var vault := b.rows.records[id].vault;
      && id in b.rows.stamps && id in c.rows.stamps && from <= c.rows.stamps[id].updated <= to && c.corrupt == b.corrupt
      && c.rows.records == b.rows.records[id := Interrupted(b.rows.records[id])]
      && c.rows.stamps == b.rows.stamps[id := b.rows.stamps[id].(updated := c.rows.stamps[id].updated)]
      && c.repos.Keys == b.repos.Keys
      && (forall v :: v in b.repos && v != vault ==> c.repos[v] == b.repos[v])
      && (vault in b.repos ==> RepoDone(b.repos[vault], c.repos[vault], true, vault in raised))
  }

  lemma ReconciledMore(m: State, b: State, c: State, done: set<string>, id: string,
                       raised: set<string>, more: set<string>, from: nat, between: nat, to: nat)
    requires Consistent(m) && Consistent(b) && Reconciled(m, b, done, raised, from, between) && id in AllIds(m) - done
    requires OneMore(b, c, id, more, between, to) && raised <= more && from <= between <= to
    ensures Reconciled(m, c, done + {id}, more, from, to)
  {
    if id in m.rows.records {
      assert RowDone(m.rows, b.rows, done, from, between, id);
    }
    RowsMore(m, b, c, done, id, more, from, between, to);
    ReposMore(m, b, c, done, id, raised, more, between, to);
    hide RowDone, Hit, RepoDone, Interrupted;
  }

  lemma RowsMore(m: State, b: State, c: State, done: set<string>, id: string,
                 more: set<string>, from: nat, between: nat, to: nat)
    requires Consistent(m) && Consistent(b) && id in AllIds(m) - done && from <= between <= to
    requires b.rows.records.Keys == b.rows.stamps.Keys == m.rows.records.Keys
    requires forall i :: i in m.rows.records ==> RowDone(m.rows, b.rows, done, from, between, i)
    requires OneMore(b, c, id, more, between, to)
    ensures c.rows.records.Keys == c.rows.stamps.Keys == m.rows.records.Keys
    ensures forall i :: i in m.rows.records ==> RowDone(m.rows, c.rows, done + {id}, from, to, i)
  {
    hide RowDone, RepoDone, Interrupted, IdsAscend;
    forall i | i in m.rows.records
      ensures i in c.rows.records && i in c.rows.stamps && RowDone(m.rows, c.rows, done + {id}, from, to, i)
    {
      RowMore(m, b, c, done, id, more, from, between, to, i);
    }
  }

  lemma RowMore(m: State, b: State, c: State, done: set<string>, id: string,
                more: set<string>, from: nat, between: nat, to: nat, i: string)
    requires Consistent(m) && Consistent(b) && id in AllIds(m) - done && from <= between <= to
    requires i in m.rows.records && i in m.rows.stamps && i in b.rows.records && i in b.rows.stamps
    requires b.rows.records.Keys == m.rows.records.Keys && RowDone(m.rows, b.rows, done, from, between, i)
    requires OneMore(b, c, id, more, between, to)
    ensures i in c.rows.records && i in c.rows.stamps && RowDone(m.rows, c.rows, done + {id}, from, to, i)
  {
  }

  lemma ReposMore(m: State, b: State, c: State, done: set<string>, id: string, raised: set<string>, more: set<string>,
                  between: nat, to: nat)
    requires Consistent(m) && Consistent(b) && id in AllIds(m) - done && raised <= more
    requires id in m.rows.records ==> id in b.rows.records && b.rows.records[id] == m.rows.records[id]
    requires id in b.rows.records ==> id in m.rows.records
    requires b.repos.Keys == m.repos.Keys
    requires forall v :: v in m.repos ==> RepoDone(m.repos[v], b.repos[v], Hit(m.rows.records, done, v), v in raised)
    requires OneMore(b, c, id, more, between, to)
    ensures c.repos.Keys == m.repos.Keys
    ensures forall v :: v in m.repos ==>
      RepoDone(m.repos[v], c.repos[v], Hit(m.rows.records, done + {id}, v), v in more)
  {
    hide Hit, Interrupted, IdsAscend, RepoDone;
    forall v | v in m.repos
      ensures v in c.repos && RepoDone(m.repos[v], c.repos[v], Hit(m.rows.records, done + {id}, v), v in more)
    {
      HitMore(m.rows.records, done, id, v);
      var hits := IsRunning(b.rows.records, id) && b.rows.records[id].vault == v && id !in b.corrupt;
      assert if hits then RepoDone(b.repos[v], c.repos[v], true, v in more) else c.repos[v] == b.repos[v];
      RepoMore(m.repos[v], b.repos[v], c.repos[v], Hit(m.rows.records, done, v), hits, v in raised, v in more);
    }
  }

  /** A vault is rolled back once; doing it again changes nothing. */
  lemma RepoMore(a: Repo, b: Repo, c: Repo, hit: bool, again: bool, raised: bool, more: bool)
    requires ValidRepo(a) && ValidRepo(b) && RepoDone(a, b, hit, raised) && (raised ==> more)
    requires if again then RepoDone(b, c, true, more) else c == b
    ensures RepoDone(a, c, hit || again, more)
  {
  }

  lemma HitMore(records: JobStore.Records, done: set<string>, id: string, v: string)
    ensures Hit(records, done + {id}, v) <==>
      Hit(records, done, v) || (IsRunning(records, id) && records[id].vault == v)
  {
  }

  function VaultOf(m: State, id: string): string {
    if id in m.rows.records then m.rows.records[id].vault else ""
  }

  predicate RepoIsClean(m: State, vault: string) {
    vault in m.repos && ValidRepo(m.repos[vault]) && IsClean(m.repos[vault])
  }

  /** An interrupted job whose vault is dirty. */
  predicate Dirty(m: State, id: string) {
    IsRunning(m.rows.records, id) && VaultOf(m, id) in m.repos && !RepoIsClean(m, VaultOf(m, id))
  }

  /** ... at its turn, and git does not fail on it then. */
  predicate Rolls(b: State, id: string, raised: set<string>) {
    Dirty(b, id) && VaultOf(b, id) !in raised
  }

  /** One vault at most was rolled back. */
  predicate OneRolledBack(a: map<string, Repo>, b: map<string, Repo>, vault: string, raised: set<string>)
    requires forall v :: v in a ==> ValidRepo(a[v])
  {
    && a.Keys == b.Keys
    && (forall v :: v in a && v != vault ==> b[v] == a[v])
    && (vault in a ==> RepoDone(a[vault], b[vault], true, vault in raised))
  }

  /** The repository of one vault, if it is registered. */
  method RollbackVault(repos: map<string, GitRepo>, vault: string) returns (rolled: bool, ghost raised: set<string>)
    requires Apart(repos)
    modifies repos.Values
    ensures Apart(repos) && RaisedOn(old(FailuresOf(repos)), FailuresOf(repos), raised)
    ensures SameHistories(old(RepoStates(repos)), RepoStates(repos))
    ensures OneRolledBack(old(RepoStates(repos)), RepoStates(repos), vault, raised)
    ensures rolled <==> vault in repos && !IsClean(old(repos[vault].repo)) && vault !in raised
  {
    hide Apart, RepoDone, RolledBack, IdsAscend, OneRolledBack, RaisedOn, SameHistories, ValidRepo, IsClean;
    ghost var a, f := RepoStates(repos), FailuresOf(repos);
    rolled, raised := false, {};
    ApartSays(repos);
    NoneRolledBack(a, f, vault);
    if vault in repos {
      ghost var failed;
      rolled, failed := Rollback(repos[vault]);
      raised := if failed then {vault} else {};
      RollbackIsDone(a[vault], repos[vault].repo, failed);
      OneIsRolledBack(a, vault, repos[vault].repo, raised);
      OneIsRaisedOn(f, vault, repos[vault].failures, raised);
      assert RepoStates(repos) == a[vault := repos[vault].repo];
      assert FailuresOf(repos) == f[vault := repos[vault].failures];
      StaysApart(repos, a);
    }
  }

  lemma ApartSays(repos: map<string, GitRepo>)
    requires Apart(repos)
    ensures forall v :: v in repos ==> ValidRepo(repos[v].repo)
    ensures forall v, w :: v in repos && w in repos && v != w ==> repos[v] != repos[w]
  {
  }

  lemma StaysApart(repos: map<string, GitRepo>, a: map<string, Repo>)
    requires forall v, w :: v in repos && w in repos && v != w ==> repos[v] != repos[w]
    requires (forall v :: v in a ==> ValidRepo(a[v])) && SameHistories(a, RepoStates(repos))
    ensures Apart(repos)
  {
    forall v | v in repos
      ensures ValidRepo(repos[v].repo)
    {
      assert SameHistory(a[v], RepoStates(repos)[v]);
    }
  }

  lemma NoneRolledBack(a: map<string, Repo>, f: map<string, seq<Exn>>, vault: string)
    requires forall v :: v in a ==> ValidRepo(a[v])
    ensures RaisedOn(f, f, {}) && SameHistories(a, a) && (vault !in a ==> OneRolledBack(a, a, vault, {}))
  {
  }

  lemma OneIsRolledBack(a: map<string, Repo>, vault: string, repo: Repo, raised: set<string>)
    requires (forall v :: v in a ==> ValidRepo(a[v])) && vault in a
    requires RepoDone(a[vault], repo, true, vault in raised)
    ensures OneRolledBack(a, a[vault := repo], vault, raised) && SameHistories(a, a[vault := repo])
  {
    hide ValidRepo, IsClean, RolledBack;
  }

  lemma OneIsRaisedOn(f: map<string, seq<Exn>>, vault: string, failures: seq<Exn>, raised: set<string>)
    requires vault in f && f[vault] <= failures && raised == if failures != f[vault] then {vault} else {}
    ensures RaisedOn(f, f[vault := failures], raised)
  {
  }

  /** Stores the record of an interrupted job, failed. */
  method StoreInterrupted(store: JobStore.JobStore, id: string) returns (r: Result<(), Exn>)
    requires store.Valid() && IsRunning(store.records, id)
    modifies store
    ensures store.Valid() && old(store.clock) <= store.clock && store.corrupt == old(store.corrupt)
    ensures store.failures == old(store.failures) + Raising(r)
    ensures r.Ok? ==>
      && store.records == old(store.records)[id := Interrupted(old(store.records)[id])]
      && id in old(store.stamps)
      && store.stamps == old(store.stamps)[id := old(store.stamps)[id].(updated := store.clock)]
  {
    hide JobStore.Apply, JobStore.Put, Interrupted;
    ghost var b := JobStore.Rows(store.records, store.stamps);
    var rec := store.records[id];
    var stored := store.Update(Interrupted(rec));
    if stored.Err? {
      return Err(stored.error);
    }
    UpdateInterrupts(b, JobStore.Rows(store.records, store.stamps), rec, store.clock);
    r := Ok(());
  }

  /** A running job: the vault is rolled back, then the record is failed. */
  method FailInterrupted(store: JobStore.JobStore, repos: map<string, GitRepo>, id: string)
    returns (r: Result<bool, Exn>, ghost raised: set<string>)
    requires Ready(store, repos) && IsRunning(store.records, id) && Consistent(Snapshot(store, repos))
    modifies store, repos.Values
    ensures Ready(store, repos) && old(store.clock) <= store.clock
    ensures SameHistories(old(RepoStates(repos)), RepoStates(repos))
    ensures RaisedOn(old(FailuresOf(repos)), FailuresOf(repos), raised)
    ensures store.failures == old(store.failures) + Raising(r)
    ensures r.Ok? ==> r.value == Rolls(old(Snapshot(store, repos)), id, raised)
    ensures r.Ok? ==>
      OneMore(old(Snapshot(store, repos)), Snapshot(store, repos), id, raised, old(store.clock), store.clock)
  {
    hide Ready, Apart, Snapshot, RepoStates, FailuresOf, RaisedOn, SameHistories, RepoDone, OneRolledBack, OneMore,
      Interrupted, Consistent, ValidRepo, IsClean, IdsAscend, RolledBack, JobStore.JobStore.Valid;
    ghost var b := Snapshot(store, repos);
    ReadySays(store, repos);
    SnapshotSays(store, repos);
    var rolled;
    rolled, raised := RollbackVault(repos, store.records[id].vault);
    var stored := StoreInterrupted(store, id);
    IsReady(store, repos);
    SnapshotSays(store, repos);
    if stored.Err? {
      return Err(stored.error), raised;
    }
    InterruptedIsOneMore(b, Snapshot(store, repos), id, raised, old(store.clock), store.clock);
    r := Ok(rolled);
  }

  lemma ReadySays(store: JobStore.JobStore, repos: map<string, GitRepo>)
    requires Ready(store, repos)
    ensures store.Valid() && Apart(repos) && Consistent(Snapshot(store, repos))
    ensures forall v :: v in repos ==> ValidRepo(RepoStates(repos)[v])
  {
  }

  lemma IsReady(store: JobStore.JobStore, repos: map<string, GitRepo>)
    requires store.Valid() && Apart(repos)
    ensures Ready(store, repos)
  {
  }

  lemma SnapshotSays(store: JobStore.JobStore, repos: map<string, GitRepo>)
    ensures Snapshot(store, repos)
         == State(JobStore.Rows(store.records, store.stamps), store.corrupt, RepoStates(repos))
  {
  }

  lemma UpdateInterrupts(b: JobStore.Rows, c: JobStore.Rows, rec: JobRecord, now: nat)
    requires rec.id in b.records && b.records[rec.id] == rec && rec.state == Running && rec.id in b.stamps
    requires c == JobStore.Apply(b, JobStore.Op.Update(Interrupted(rec)), now)
    ensures c.records == b.records[rec.id := Interrupted(rec)]
    ensures c.stamps == b.stamps[rec.id := b.stamps[rec.id].(updated := now)]
  {
  }

  lemma RollbackIsDone(a: Repo, b: Repo, raised: bool)
    requires ValidRepo(a) && SameHistory(a, b) && (!raised ==> b == RolledBack(a)) && (IsClean(a) ==> b == a)
    ensures RepoDone(a, b, true, raised)
  {
  }

  lemma InterruptedIsOneMore(b: State, c: State, id: string, raised: set<string>, from: nat, to: nat)
    requires Consistent(b) && IsRunning(b.rows.records, id)
    requires id in b.rows.stamps && c.corrupt == b.corrupt && from <= to
    requires c.rows.records == b.rows.records[id := Interrupted(b.rows.records[id])]
    requires c.rows.stamps == b.rows.stamps[id := b.rows.stamps[id].(updated := to)]
    requires OneRolledBack(b.repos, c.repos, b.rows.records[id].vault, raised)
    ensures OneMore(b, c, id, raised, from, to)
  {
    hide RepoDone, Interrupted, IdsAscend;
  }

  /** The report gains the id on the list its record calls for. */
  predicate Noted(before: Report, after: Report, b: State, id: string, raised: set<string>) {
    && after.swept == before.swept
    && after.quarantined == before.quarantined + (if id in b.corrupt then [id] else [])
    && after.requeued == before.requeued
       + (if id in b.rows.records && b.rows.records[id].state == Queued then [id] else [])
    && after.interrupted == before.interrupted + (if IsRunning(b.rows.records, id) then [id] else [])
    && after.rolledBack == before.rolledBack + (if Rolls(b, id, raised) then [id] else [])
  }

  /** One id: quarantine, fail and roll back, requeue, or leave alone. */
  method RecoverOne(store: JobStore.JobStore, repos: map<string, GitRepo>, id: string, report: Report)
    returns (r: Result<Report, Exn>, ghost raised: set<string>)
    requires Ready(store, repos) && id in AllIds(Snapshot(store, repos))
    modifies store, repos.Values
    ensures Ready(store, repos) && old(store.clock) <= store.clock
    ensures SameHistories(old(RepoStates(repos)), RepoStates(repos))
    ensures r.Ok? ==>
      OneMore(old(Snapshot(store, repos)), Snapshot(store, repos), id, raised, old(store.clock), store.clock)
    ensures RaisedOn(old(FailuresOf(repos)), FailuresOf(repos), raised)
    ensures |store.failures|
      == |old(store.failures)| + (if id in old(store.corrupt) then 1 else 0) + (if r.Err? then 1 else 0)
    ensures r.Err? ==> old(IsRunning(store.records, id)) && Last(store.failures) == r.error
    ensures Consistent(old(Snapshot(store, repos)))
    ensures r.Ok? ==> Noted(report, r.value, old(Snapshot(store, repos)), id, raised)
  {
    hide Ready, Apart, RepoStates, FailuresOf, RaisedOn, SameHistories, RepoDone, Interrupted, Consistent, ValidRepo,
      IsClean, IdsAscend, RolledBack, JobStore.JobStore.Valid;
    raised := {};
    ReadySays(store, repos);
    NoneRolledBack(RepoStates(repos), FailuresOf(repos), "");
    var job := store.Load(id);
    if job.Err? {
      store.Quarantine(id);
      IsReady(store, repos);
      r := Ok(report.(quarantined := report.quarantined + [id]));
    } else if job.value.None? || Settled(job.value.value.state) {
      r := Ok(report);
    } else if job.value.value.state == Running {
      var failed;
      failed, raised := FailInterrupted(store, repos, id);
      if failed.Err? {
        return Err(failed.error), raised;
      }
      r := Ok(report.(interrupted := report.interrupted + [id],
                      rolledBack := if failed.value then report.rolledBack + [id] else report.rolledBack));
    } else {
      r := Ok(report.(requeued := report.requeued + [id]));
    }
  }

  /** The report so far is about the first ids. */
  predicate Reported(report: Report, m: State, ids: seq<string>) {
    && report.interrupted == InState(m.rows.records, ids, Running)
    && report.requeued == InState(m.rows.records, ids, Queued)
    && report.quarantined == Unreadable(m.corrupt, ids)
  }

  lemma ReportedMore(before: Report, after: Report, m: State, b: State, ids: seq<string>, id: string,
                     raised: set<string>)
    requires Reported(before, m, ids) && Noted(before, after, b, id, raised)
    requires id in b.corrupt <==> id in m.corrupt
    requires id in b.rows.records <==> id in m.rows.records
    requires id in m.rows.records ==> b.rows.records[id] == m.rows.records[id]
    ensures Reported(after, m, ids + [id])
  {
  }

  /** The ids of a set, in the order they are listed. */
  function Chosen(ids: seq<string>, chosen: set<string>): seq<string> {
    if ids == [] then []
    else if Last(ids) in chosen then Chosen(Init(ids), chosen) + [Last(ids)]
    else Chosen(Init(ids), chosen)
  }

  lemma {:induction false} ChosenSame(ids: seq<string>, chosen: set<string>, id: string)
    requires id !in ids
    ensures Chosen(ids, chosen + {id}) == Chosen(ids, chosen)
  {
    if ids == [] {
    } else {
      ChosenSame(Init(ids), chosen, id);
    }
  }

  /** One id of those listed so far: reported as rolled back only if its vault was dirty, which
    * is clean then. Where git never failed, each dirty vault is reported with the first of its
    * interrupted jobs, and with no other. */
  predicate ReportedWell(rolled: set<string>, m: State, b: State, ids: seq<string>, raised: set<string>, i: nat)
    requires i < |ids|
  {
    && (ids[i] in rolled ==> Dirty(m, ids[i]) && RepoIsClean(b, VaultOf(m, ids[i])))
    && (Dirty(m, ids[i]) && VaultOf(m, ids[i]) !in raised ==>
          (ids[i] in rolled <==> !Hit(m.rows.records, ToSet(ids[..i]), VaultOf(m, ids[i]))))
  }

  /** The ids reported as rolled back, in the order listed, no two of them of one vault. */
  predicate RolledBackWell(rolledBack: seq<string>, m: State, b: State, ids: seq<string>, raised: set<string>) {
    var rolled := ToSet(rolledBack);
    && rolledBack == Chosen(ids, rolled)
    && (forall i :: 0 <= i < |ids| ==> ReportedWell(rolled, m, b, ids, raised, i))
    && (forall i, j :: 0 <= i < j < |ids| && ids[i] in rolled && ids[j] in rolled ==>
          VaultOf(m, ids[i]) != VaultOf(m, ids[j]))
  }

  lemma NoneReported(m: State)
    ensures RolledBackWell([], m, m, [], {})
  {
  }

  /** A clean vault stays as it is. */
  lemma CleanStays(b: State, c: State, id: string, raised: set<string>, from: nat, to: nat, vault: string)
    requires Consistent(b) && OneMore(b, c, id, raised, from, to) && RepoIsClean(b, vault)
    ensures RepoIsClean(c, vault)
  {
    hide IdsAscend, IsClean, RolledBack, Interrupted;
  }

  /** What a turn does, told by the state before the first turn. */
  lemma TurnRolls(m: State, b: State, c: State, done: set<string>, id: string, raised: set<string>, more: set<string>,
                  from: nat, between: nat, to: nat)
    requires Consistent(m) && Consistent(b) && Reconciled(m, b, done, raised, from, between)
    requires id in b.rows.records <==> id in m.rows.records
    requires id in m.rows.records ==> b.rows.records[id] == m.rows.records[id]
    requires id in m.corrupt <==> id in b.corrupt
    requires OneMore(b, c, id, more, between, to)
    ensures Rolls(b, id, more) ==> Dirty(m, id) && Dirty(b, id) && RepoIsClean(c, VaultOf(m, id))
    ensures VaultOf(b, id) == VaultOf(m, id)
    ensures Dirty(m, id) && VaultOf(m, id) !in raised + more ==>
      (Rolls(b, id, more) <==> !Hit(m.rows.records, done, VaultOf(m, id)))
  {
    var vault := VaultOf(m, id);
    if IsRunning(m.rows.records, id) && vault in m.repos {
      var hit := Hit(m.rows.records, done, vault);
      assert RepoDone(m.repos[vault], b.repos[vault], hit, vault in raised);
      RollbackCleans(m.repos[vault]);
      RollbackCleans(b.repos[vault]);
      assert RepoDone(b.repos[vault], c.repos[vault], true, vault in more);
    }
    hide Hit, Reconciled, IdsAscend, IsClean, Interrupted;
  }

  lemma ReportedLater(rolled: set<string>, m: State, b: State, c: State, ids: seq<string>, id: string,
                      raised: set<string>, more: set<string>, from: nat, to: nat, k: nat)
    requires Consistent(b) && OneMore(b, c, id, more, from, to)
    requires k < |ids| && ids[k] != id && ReportedWell(rolled, m, b, ids, raised, k)
    ensures ReportedWell(rolled, m, c, ids + [id], raised + more, k)
    ensures ReportedWell(rolled + {id}, m, c, ids + [id], raised + more, k)
  {
    hide Hit, OneMore, Dirty, RepoIsClean;
    assert (ids + [id])[..k] == ids[..k];
    if ids[k] in rolled {
      CleanStays(b, c, id, more, from, to, VaultOf(m, ids[k]));
    }
  }

  lemma ReportedNow(rolled: set<string>, m: State, b: State, c: State, ids: seq<string>, id: string,
                    raised: set<string>)
    requires id in rolled ==> Dirty(m, id) && RepoIsClean(c, VaultOf(m, id))
    requires Dirty(m, id) && VaultOf(m, id) !in raised ==>
      (id in rolled <==> !Hit(m.rows.records, ToSet(ids), VaultOf(m, id)))
    ensures ReportedWell(rolled, m, c, ids + [id], raised, |ids|)
  {
    assert (ids + [id])[..|ids|] == ids;
  }

  lemma ReportedOneMore(before: seq<string>, after: seq<string>, m: State, b: State, c: State, ids: seq<string>,
                        id: string, raised: set<string>, more: set<string>, from: nat, between: nat, to: nat)
    requires Consistent(m) && Consistent(b) && Reconciled(m, b, ToSet(ids), raised, from, between)
    requires id in b.rows.records <==> id in m.rows.records
    requires id in m.rows.records ==> b.rows.records[id] == m.rows.records[id]
    requires id in m.corrupt <==> id in b.corrupt
    requires OneMore(b, c, id, more, between, to)
    requires id !in ids && id !in before && RolledBackWell(before, m, b, ids, raised)
    requires after == before + (if Rolls(b, id, more) then [id] else [])
    ensures RolledBackWell(after, m, c, ids + [id], raised + more)
  {
    hide Consistent, Reconciled, OneMore, Dirty, RepoIsClean, Hit, Rolls, Chosen, ReportedWell;
    var rolled, next := ToSet(before), ToSet(after);
    TurnRolls(m, b, c, ToSet(ids), id, raised, more, from, between, to);
    ToSetAppend(before, id);
    assert next == if Rolls(b, id, more) then rolled + {id} else rolled;
    forall k | 0 <= k < |ids + [id]|
      ensures ReportedWell(next, m, c, ids + [id], raised + more, k)
    {
      if k < |ids| {
        ReportedLater(rolled, m, b, c, ids, id, raised, more, between, to, k);
      } else {
        ReportedNow(next, m, b, c, ids, id, raised + more);
      }
    }
    ChosenMore(ids, rolled, id, Rolls(b, id, more));
    forall k | 0 <= k < |ids| && ids[k] in next && id in next
      ensures VaultOf(m, ids[k]) != VaultOf(m, id)
    {
      OtherVault(rolled, m, b, ids, raised, k, id);
    }
  }

  lemma OtherVault(rolled: set<string>, m: State, b: State, ids: seq<string>, raised: set<string>, k: nat, id: string)
    requires k < |ids| && ids[k] in rolled && ReportedWell(rolled, m, b, ids, raised, k)
    requires Dirty(b, id) && VaultOf(b, id) == VaultOf(m, id)
    ensures VaultOf(m, ids[k]) != VaultOf(m, id)
  {
  }

  lemma ChosenMore(ids: seq<string>, chosen: set<string>, id: string, more: bool)
    requires id !in ids && id !in chosen
    ensures Chosen(ids + [id], if more then chosen + {id} else chosen)
         == Chosen(ids, chosen) + (if more then [id] else [])
  {
    ChosenSame(ids, chosen, id);
    assert Init(ids + [id]) == ids;
  }

  /** Storing the failed record of some interrupted job raised; before that the store failed
    * only to read the records that were then quarantined. */
  ghost predicate Stopped(m: State, ids: seq<string>, before: seq<Exn>, after: seq<Exn>, exn: Exn) {
    && after != [] && Last(after) == exn
    && exists i :: 0 <= i < |ids| && IsRunning(m.rows.records, ids[i])
                   && |after| == |before| + |Unreadable(m.corrupt, ids[..i])| + 1
  }

  /** The loop, over ids that are all different. */
  method ReconcileAll(store: JobStore.JobStore, repos: map<string, GitRepo>, ids: seq<string>, swept: set<string>)
    returns (r: Result<Report, Exn>, ghost raised: set<string>)
    requires Ready(store, repos) && Distinct(ids) && ToSet(ids) == AllIds(Snapshot(store, repos))
    modifies store, repos.Values
    ensures Ready(store, repos) && old(store.clock) <= store.clock
    ensures SameHistories(old(RepoStates(repos)), RepoStates(repos))
    ensures Consistent(old(Snapshot(store, repos)))
    ensures r.Ok? ==>
      Reconciled(old(Snapshot(store, repos)), Snapshot(store, repos), ToSet(ids), raised, old(store.clock), store.clock)
    ensures r.Ok? ==> r.value.swept == swept && Reported(r.value, old(Snapshot(store, repos)), ids)
    ensures RaisedOn(old(FailuresOf(repos)), FailuresOf(repos), raised)
    ensures r.Ok? ==>
      RolledBackWell(r.value.rolledBack, old(Snapshot(store, repos)), Snapshot(store, repos), ids, raised)
    ensures r.Err? ==> Stopped(old(Snapshot(store, repos)), ids, old(store.failures), store.failures, r.error)
  {
    hide *;
    ghost var m, failures, repos0 := Snapshot(store, repos), FailuresOf(repos), RepoStates(repos);
    ReadySays(store, repos);
    SnapshotSays(store, repos);
    raised := {};
    var report := Report(swept, [], [], [], []);
    NothingDone(m, ids, store.clock, report, failures);
    for i := 0 to |ids|
      invariant Ready(store, repos) && old(store.clock) <= store.clock
      invariant SameHistories(repos0, RepoStates(repos)) && RaisedOn(failures, FailuresOf(repos), raised)
      invariant SoFar(m, Snapshot(store, repos), report, ids[..i], swept, raised, old(store.clock), store.clock)
      invariant |store.failures| == |old(store.failures)| + |Unreadable(m.corrupt, ids[..i])|
    {
      ghost var b, between, before := Snapshot(store, repos), store.clock, report;
      ghost var failed, states := FailuresOf(repos), RepoStates(repos);
      ReadySays(store, repos);
      NextId(m, b, before, ids, i, swept, raised, old(store.clock), between);
      SnapshotSays(store, repos);
      var step;
      ghost var more;
      step, more := RecoverOne(store, repos, ids[i], report);
      RaisedOnMore(failures, failed, FailuresOf(repos), raised, more);
      SameHistoriesStill(repos0, states, RepoStates(repos));
      if step.Err? {
        r, raised := Err(step.error), raised + more;
        StoppedHere(m, b, ids, i, old(store.failures), store.failures, step.error);
        return;
      }
      ReadySays(store, repos);
      OneTurn(m, b, Snapshot(store, repos), before, step.value, ids, i, swept, raised, more, old(store.clock), between,
              store.clock);
      OneMoreUnreadable(m.corrupt, ids, i);
      report, raised := step.value, raised + more;
    }
    r := Ok(report);
    AllDone(m, Snapshot(store, repos), report, ids, swept, raised, old(store.clock), store.clock);
  }

  /** The loop got as far as these ids. */
  predicate SoFar(m: State, b: State, report: Report, ids: seq<string>, swept: set<string>, raised: set<string>,
                  from: nat, to: nat) {
    && Consistent(m) && Consistent(b) && Reconciled(m, b, ToSet(ids), raised, from, to)
    && Reported(report, m, ids) && report.swept == swept
    && RolledBackWell(report.rolledBack, m, b, ids, raised) && ToSet(report.rolledBack) <= ToSet(ids)
  }

  lemma SameHistoriesStill(a: map<string, Repo>, b: map<string, Repo>, c: map<string, Repo>)
    requires SameHistories(a, b) && SameHistories(b, c)
    ensures SameHistories(a, c)
  {
  }

  lemma OneMoreUnreadable(corrupt: set<string>, ids: seq<string>, i: nat)
    requires i < |ids|
    ensures |Unreadable(corrupt, ids[..i + 1])|
         == |Unreadable(corrupt, ids[..i])| + (if ids[i] in corrupt then 1 else 0)
  {
    assert Init(ids[..i + 1]) == ids[..i];
  }

  lemma StoppedHere(m: State, b: State, ids: seq<string>, i: nat, before: seq<Exn>, after: seq<Exn>, exn: Exn)
    requires i < |ids| && Consistent(b) && IsRunning(b.rows.records, ids[i])
    requires IsRunning(b.rows.records, ids[i]) ==> IsRunning(m.rows.records, ids[i])
    requires |after| == |before| + |Unreadable(m.corrupt, ids[..i])| + (if ids[i] in b.corrupt then 1 else 0) + 1
    requires Last(after) == exn
    ensures Stopped(m, ids, before, after, exn)
  {
    hide Unreadable;
  }

  lemma AllDone(m: State, b: State, report: Report, ids: seq<string>, swept: set<string>, raised: set<string>,
                from: nat, to: nat)
    requires SoFar(m, b, report, ids[..|ids|], swept, raised, from, to)
    ensures Consistent(m) && Reconciled(m, b, ToSet(ids), raised, from, to)
    ensures report.swept == swept && Reported(report, m, ids)
    ensures RolledBackWell(report.rolledBack, m, b, ids, raised)
  {
    assert ids[..|ids|] == ids;
  }

  lemma OneTurn(m: State, b: State, c: State, before: Report, after: Report, ids: seq<string>, i: nat,
                swept: set<string>, raised: set<string>, more: set<string>, from: nat, between: nat, to: nat)
    requires i < |ids| && Distinct(ids) && ToSet(ids) == AllIds(m)
    requires SoFar(m, b, before, ids[..i], swept, raised, from, between) && Consistent(c)
    requires OneMore(b, c, ids[i], more, between, to) && Noted(before, after, b, ids[i], more)
    requires from <= between <= to
    ensures SoFar(m, c, after, ids[..i + 1], swept, raised + more, from, to)
  {
    hide Reconciled, OneMore, Reported, Noted, RolledBackWell, Consistent, Rolls;
    NextId(m, b, before, ids, i, swept, raised, from, between);
    OneMoreRaised(b, c, ids[i], more, raised + more, between, to);
    ReconciledMore(m, b, c, ToSet(ids[..i]), ids[i], raised, raised + more, from, between, to);
    ReportedMore(before, after, m, b, ids[..i], ids[i], more);
    NotedSwept(before, after, b, ids[i], more);
    ReportedOneMore(before.rolledBack, after.rolledBack, m, b, c, ids[..i], ids[i], raised, more, from, between, to);
    ToSetAppend(ids[..i], ids[i]);
    ToSetAppend(before.rolledBack, ids[i]);
    assert ids[..i + 1] == ids[..i] + [ids[i]];
  }

  lemma NotedSwept(before: Report, after: Report, b: State, id: string, raised: set<string>)
    requires Noted(before, after, b, id, raised)
    ensures after.swept == before.swept
    ensures after.rolledBack == before.rolledBack + (if Rolls(b, id, raised) then [id] else [])
  {
  }

  lemma OneMoreRaised(b: State, c: State, id: string, raised: set<string>, more: set<string>, from: nat, to: nat)
    requires Consistent(b) && OneMore(b, c, id, raised, from, to) && raised <= more
    ensures OneMore(b, c, id, more, from, to)
  {
  }

  /** An id not reached yet is as the sweep left it. */
  lemma NextId(m: State, b: State, report: Report, ids: seq<string>, i: nat, swept: set<string>, raised: set<string>,
               from: nat, to: nat)
    requires Distinct(ids) && i < |ids| && ToSet(ids) == AllIds(m)
    requires SoFar(m, b, report, ids[..i], swept, raised, from, to)
    ensures ids[i] in AllIds(m) - ToSet(ids[..i]) && ids[i] in AllIds(b)
    ensures ids[i] !in ids[..i] && ids[i] !in report.rolledBack
    ensures ids[i] in b.corrupt <==> ids[i] in m.corrupt
    ensures ids[i] in b.rows.records <==> ids[i] in m.rows.records
    ensures ids[i] in m.rows.records ==> b.rows.records[ids[i]] == m.rows.records[ids[i]]
    ensures IsRunning(b.rows.records, ids[i]) <==> IsRunning(m.rows.records, ids[i])
  {
    hide RolledBackWell, Reported;
  }

  lemma NothingDone(m: State, ids: seq<string>, now: nat, report: Report, failures: map<string, seq<Exn>>)
    requires Consistent(m) && report == Report(report.swept, [], [], [], [])
    ensures SoFar(m, m, report, ids[..0], report.swept, {}, now, now)
    ensures RaisedOn(failures, failures, {}) && SameHistories(m.repos, m.repos)
    ensures |Unreadable(m.corrupt, ids[..0])| == 0
  {
    assert ids[..0] == [] && ToSet<string>([]) == {};
    NoneReported(m);
    hide RolledBackWell;
  }

  /** The vault of an interrupted job on which no git command failed since is clean. */
  predicate InterruptedAreClean(a: State, repos: map<string, Repo>, before: map<string, seq<Exn>>,
                                after: map<string, seq<Exn>>) {
    forall id :: id in a.rows.records && IsRunning(a.rows.records, id) && VaultOf(a, id) in a.repos ==>
      var vault := VaultOf(a, id);
      && vault in repos && ValidRepo(repos[vault]) && vault in before && vault in after
      && (after[vault] == before[vault] ==> IsClean(repos[vault]))
  }

  lemma CleanUnlessRaised(a: State, b: State, retention: nat, raised: set<string>, now: nat, to: nat,
                          before: map<string, seq<Exn>>, after: map<string, seq<Exn>>)
    requires Consistent(a) && Recovered(a, b, retention, raised, now, to)
    requires RaisedOn(before, after, raised) && before.Keys == a.repos.Keys
    ensures InterruptedAreClean(a, b.repos, before, after)
  {
    hide Recovered, IdsAscend;
    RecoverySettlesEverything(a, b, retention, raised, now, to);
  }

  /** `recover_on_startup`, over every id in string order. It raises only when a failed record
    * cannot be stored; `raised` are the vaults on which git failed, and on no other is a
    * rollback missed. */
  method RecoverOnStartup(store: JobStore.JobStore, repos: map<string, GitRepo>)
    returns (r: Result<Report, Exn>, ghost raised: set<string>, ghost now: nat, ids: seq<string>)
    requires Ready(store, repos) && Consistent(Snapshot(store, repos))
    modifies store, repos.Values
    ensures Ready(store, repos)
    ensures SameHistories(old(RepoStates(repos)), RepoStates(repos))
    ensures old(store.clock) <= now <= store.clock
    ensures r.Ok? ==>
      Recovered(old(Snapshot(store, repos)), Snapshot(store, repos), store.retention, raised, now, store.clock)
    ensures RaisedOn(old(FailuresOf(repos)), FailuresOf(repos), raised)
    ensures r.Ok? ==>
      InterruptedAreClean(old(Snapshot(store, repos)), RepoStates(repos), old(FailuresOf(repos)), FailuresOf(repos))
    ensures var m := Swept(old(Snapshot(store, repos)), store.retention, now);
      && IsSorted(StrLe, ids) && Distinct(ids) && ToSet(ids) == AllIds(m)
      && (r.Ok? ==> Reported(r.value, m, ids) && r.value.swept == old(store.records).Keys - m.rows.records.Keys)
      && (r.Ok? ==> RolledBackWell(r.value.rolledBack, m, Snapshot(store, repos), ids, raised))
      && (r.Err? ==> Stopped(m, ids, old(store.failures), store.failures, r.error))
  {
    hide Reconciled, Reported, RolledBackWell, Stopped, RaisedOn, SameHistories, InterruptedAreClean, Consistent,
      Apart, IsSorted, StrLe, IdsAscend, JobStore.WellStamped, JobStore.IsExpired;
    ghost var a, failures := Snapshot(store, repos), FailuresOf(repos);
    var swept := store.Sweep();
    now := store.clock;
    assert Snapshot(store, repos) == Swept(a, store.retention, now);
    assert swept == a.rows.records.Keys - store.records.Keys;
    ids := SortedIds(store.records.Keys + store.corrupt);
    r, raised := ReconcileAll(store, repos, ids, swept);
    if r.Ok? {
      CleanUnlessRaised(a, Snapshot(store, repos), store.retention, raised, now, store.clock, failures,
                        FailuresOf(repos));
    }
  }
}
