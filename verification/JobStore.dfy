/** Job records persisted with timestamps, and swept after a retention period. */
module JobStore {
  import opened Prelude
  import opened Job

  type Records = map<string, JobRecord>

  /** `update`: the stored state may stay or make a legal move. */
  function Put(records: Records, rec: JobRecord): Result<Records, Exn> {
    if rec.id !in records then Err(Exn(Terminal, "no such job"))
    else if rec.state != records[rec.id].state && !Legal(records[rec.id].state, rec.state)
      then Err(Exn(Foreign, "illegal job transition"))
    else Ok(records[rec.id := rec])
  }

  /** When a record was created, first seen running, and last written. */
  datatype Stamps = Stamps(created: nat, started: Option<nat>, updated: nat)

  function Restamped(s: Stamps, state: JobState, now: nat): Stamps {
    s.(started := if s.started.None? && state == Running then Some(now) else s.started, updated := now)
  }

  predicate Ordered(s: Stamps, now: nat) {
    && s.created <= s.updated <= now
    && (s.started.Some? ==> s.created <= s.started.value <= s.updated)
  }

  /** Terminal, and last written more than the retention period ago. */
  predicate IsExpired(records: Records, stamps: map<string, Stamps>, retention: nat, now: nat, id: string) {
    id in records && id in stamps && Settled(records[id].state) && stamps[id].updated + retention < now
  }

  function Expired(records: Records, stamps: map<string, Stamps>, retention: nat, now: nat): set<string> {
    set id | id in records && IsExpired(records, stamps, retention, now, id)
  }

  datatype Rows = Rows(records: Records, stamps: map<string, Stamps>)

  datatype Op = Create(rec: JobRecord) | Update(rec: JobRecord) | Sweep(retention: nat)

  /** One store operation at time `now`; one that raises changes nothing. */
  function Apply(s: Rows, op: Op, now: nat): Rows {
    match op
    case Create(rec) =>
      if rec.id in s.records then s
      else Rows(s.records[rec.id := rec], s.stamps[rec.id := Stamps(now, None, now)])
    case Update(rec) =>
      if rec.id !in s.stamps then s
      else
        (match Put(s.records, rec)
         case Err(_) => s
         case Ok(records) => Rows(records, s.stamps[rec.id := Restamped(s.stamps[rec.id], rec.state, now)]))
    case Sweep(retention) =>
      var gone := Expired(s.records, s.stamps, retention, now);
      Rows(s.records - gone, s.stamps - gone)
  }

  function ApplyAll(s: Rows, ops: seq<Op>, times: seq<nat>): Rows
    requires |ops| == |times|
  {
    if ops == [] then s else Apply(ApplyAll(s, Init(ops), Init(times)), Last(ops), Last(times))
  }

  predicate Monotone(times: seq<nat>) {
    forall i, j :: 0 <= i < j < |times| ==> times[i] <= times[j]
  }

  predicate WellStamped(s: Rows, now: nat) {
    && s.records.Keys == s.stamps.Keys
    && forall id :: id in s.stamps ==> Ordered(s.stamps[id], now)
  }

  /** `id` has a record after each of the operations. */
  ghost predicate Kept(s: Rows, ops: seq<Op>, times: seq<nat>, id: string)
    requires |ops| == |times|
  {
    forall k :: 0 <= k <= |ops| ==> id in ApplyAll(s, ops[..k], times[..k]).records
  }

  /** What one record may have become while it was kept. */
  predicate Follows(before: Rows, after: Rows, id: string)
    requires id in before.records && id in before.stamps
    requires id in after.records && id in after.stamps
  {
    && Reaches(before.records[id].state, after.records[id].state)
    && before.stamps[id].created == after.stamps[id].created
    && before.stamps[id].updated <= after.stamps[id].updated
    && (before.stamps[id].started.Some? ==> before.stamps[id].started == after.stamps[id].started)
  }

  lemma ApplyKeepsStamps(s: Rows, op: Op, now: nat)
    requires WellStamped(s, now)
    ensures WellStamped(Apply(s, op, now), now)
  {
  }

  /** Over any history with a clock that does not go back, created <= started <= updated. */
  lemma {:induction false} StampsStayOrdered(s: Rows, start: nat, ops: seq<Op>, times: seq<nat>)
    requires |ops| == |times| && WellStamped(s, start) && Monotone([start] + times)
    ensures WellStamped(ApplyAll(s, ops, times), Last([start] + times))
  {
    if ops == [] {
    } else {
      EarlierIsMonotone(start, times);
      StampsStayOrdered(s, start, Init(ops), Init(times));
      StampsAge(ApplyAll(s, Init(ops), Init(times)), Last([start] + Init(times)), Last(times));
      ApplyKeepsStamps(ApplyAll(s, Init(ops), Init(times)), Last(ops), Last(times));
    }
  }

  /** One operation that keeps a record moves it along the legal graph. */
  lemma ApplyFollows(s: Rows, op: Op, now: nat, id: string)
    requires WellStamped(s, now) && id in s.records && id in Apply(s, op, now).records
    ensures id in s.stamps && id in Apply(s, op, now).stamps
    ensures Follows(s, Apply(s, op, now), id)
  {
  }

  lemma FollowsTransitively(a: Rows, b: Rows, c: Rows, id: string)
    requires id in a.records && id in a.stamps && id in b.records && id in b.stamps && id in c.records && id in c.stamps
    requires Follows(a, b, id) && Follows(b, c, id)
    ensures Follows(a, c, id)
  {
  }

  /** While a record is kept its states follow the legal graph, `created` never changes and
    * `started` is set at most once. */
  lemma {:induction false} RecordHistory(s: Rows, start: nat, ops: seq<Op>, times: seq<nat>, id: string)
    requires |ops| == |times| && WellStamped(s, start) && Monotone([start] + times)
    requires Kept(s, ops, times, id)
    ensures id in s.records && id in s.stamps
    ensures id in ApplyAll(s, ops, times).records && id in ApplyAll(s, ops, times).stamps
    ensures Follows(s, ApplyAll(s, ops, times), id)
  {
    assert ops[..0] == [] && times[..0] == [] && ops[..|ops|] == ops && times[..|ops|] == times;
    assert id in ApplyAll(s, ops[..0], times[..0]).records;
    assert id in ApplyAll(s, ops[..|ops|], times[..|ops|]).records;
    if ops == [] {
      return;
    }
    var before := ApplyAll(s, Init(ops), Init(times));
    EarlierIsMonotone(start, times);
    forall k | 0 <= k <= |Init(ops)|
      ensures id in ApplyAll(s, Init(ops)[..k], Init(times)[..k]).records
    {
      assert Init(ops)[..k] == ops[..k] && Init(times)[..k] == times[..k];
    }
    hide Apply, Follows, Monotone;
    RecordHistory(s, start, Init(ops), Init(times), id);
    StampsStayOrdered(s, start, Init(ops), Init(times));
    StampsAge(before, Last([start] + Init(times)), Last(times));
    ApplyFollows(before, Last(ops), Last(times), id);
    FollowsTransitively(s, before, Apply(before, Last(ops), Last(times)), id);
  }

  lemma EarlierIsMonotone(start: nat, times: seq<nat>)
    requires times != [] && Monotone([start] + times)
    ensures Monotone([start] + Init(times)) && Last([start] + Init(times)) <= Last(times)
  {
    var all := [start] + times;
    assert forall i :: 0 <= i < |times| ==> ([start] + Init(times))[i] == all[i];
    assert all[|times| - 1] <= all[|times|];
  }

  lemma StampsAge(s: Rows, now: nat, later: nat)
    requires WellStamped(s, now) && now <= later
    ensures WellStamped(s, later)
  {
  }

  /** A record disappears by a sweep alone, if and only if it is terminal and old enough. */
  lemma OnlySettledRecordsVanish(s: Rows, op: Op, now: nat, id: string)
    requires id in s.records
    ensures id !in Apply(s, op, now).records <==>
      && op.Sweep? && Settled(s.records[id].state)
      && id in s.stamps && s.stamps[id].updated + op.retention < now
  {
    if op.Sweep? {
      assert id in Expired(s.records, s.stamps, op.retention, now)
        <==> IsExpired(s.records, s.stamps, op.retention, now, id);
    }
  }

  /** The store of one state directory. */
  class JobStore {
    var records: Records
    var stamps: map<string, Stamps>
    /** Ids whose file is there but cannot be read. */
    var corrupt: set<string>
    var clock: nat
    /** What its operations raised. */
    ghost var failures: seq<Exn>
    const retention: nat

    ghost predicate Valid()
      reads `records, `stamps, `corrupt, `clock
    {
      && WellStamped(Rows(records, stamps), clock)
      && records.Keys !! corrupt
      && forall id :: id in records ==> records[id].id == id
    }

    constructor (retention: nat)
      ensures Valid() && records == map[] && corrupt == {} && this.retention == retention && failures == []
    {
      this.retention, failures := retention, [];
      records, stamps, corrupt, clock := map[], map[], {}, 0;
    }

    method Now() returns (now: nat)
      requires Valid()
      modifies `clock
      ensures Valid() && old(clock) <= clock == now
    {
      var later: nat :| later >= 0;
      clock := clock + later;
      now := clock;
    }

    method Load(id: string) returns (r: Result<Option<JobRecord>, Exn>)
      modifies `failures
      ensures failures == old(failures) + Raising(r)
      ensures id in corrupt ==> r.Err? && r.error.kind == Foreign
      ensures id in records && id !in corrupt ==> r == Ok(Some(records[id]))
      ensures id !in records && id !in corrupt ==> r == Ok(None)
    {
      if id in corrupt {
        failures := failures + [Exn(Foreign, "unreadable record")];
        return Err(Exn(Foreign, "unreadable record"));
      }
      r := Ok(if id in records then Some(records[id]) else None);
    }

    method Create(rec: JobRecord) returns (r: Result<JobRecord, Exn>)
      requires Valid()
      modifies this
      ensures Valid() && corrupt == old(corrupt) && old(clock) <= clock
      ensures failures == old(failures) + Raising(r)
      ensures old(rec.id in records || rec.id in corrupt) ==> r.Err?
      ensures r.Ok? ==>
        r.value == rec && Rows(records, stamps) == Apply(old(Rows(records, stamps)), Op.Create(rec), clock)
      ensures r.Ok? ==> records == old(records)[rec.id := rec]
      ensures r.Err? ==> records == old(records) && stamps == old(stamps)
    {
      if rec.id in records || rec.id in corrupt {
        failures := failures + [Exn(Terminal, "job already exists")];
        return Err(Exn(Terminal, "job already exists"));
      }
      var now := Now();
      if * {  // the record holds a secret, or the file cannot be written
        var exn: Exn := *;
        failures := failures + [exn];
        return Err(exn);
      }
      records, stamps := records[rec.id := rec], stamps[rec.id := Stamps(now, None, now)];
      r := Ok(rec);
    }

    method Update(rec: JobRecord) returns (r: Result<JobRecord, Exn>)
      requires Valid()
      modifies this
      ensures Valid() && corrupt == old(corrupt) && old(clock) <= clock
      ensures failures == old(failures) + Raising(r)
      ensures old(Put(records, rec).Err? || rec.id in corrupt) ==> r.Err?
      ensures r.Ok? ==>
        r.value == rec && Rows(records, stamps) == Apply(old(Rows(records, stamps)), Op.Update(rec), clock)
      ensures r.Ok? ==> Put(old(records), rec) == Ok(records)
      ensures r.Err? ==> records == old(records) && stamps == old(stamps)
    {
      var existing :- Load(rec.id);
      if existing.None? {
        failures := failures + [Exn(Terminal, "no such job")];
        return Err(Exn(Terminal, "no such job"));
      }
      if rec.state != existing.value.state && !Legal(existing.value.state, rec.state) {
        failures := failures + [Exn(Foreign, "illegal job transition")];
        return Err(Exn(Foreign, "illegal job transition"));
      }
      var now := Now();
      if * {
        var exn: Exn := *;
        failures := failures + [exn];
        return Err(exn);
      }
      records, stamps := records[rec.id := rec], stamps[rec.id := Restamped(stamps[rec.id], rec.state, now)];
      r := Ok(rec);
    }

    /** Deletes old terminal records. */
    method Sweep() returns (removed: set<string>)
      requires Valid()
      modifies `records, `stamps, `clock
      ensures Valid() && corrupt == old(corrupt) && old(clock) <= clock
      ensures removed == Expired(old(records), old(stamps), retention, clock)
      ensures Rows(records, stamps) == Apply(old(Rows(records, stamps)), Op.Sweep(retention), clock)
    {
      var now := Now();
      var todo := records.Keys;
      removed := {};
      while todo != {}
        invariant todo <= records.Keys
        invariant forall id :: id in removed <==>
          id in records.Keys - todo && IsExpired(records, stamps, retention, now, id)
        decreases |todo|
      {
        var id :| id in todo;
        if IsExpired(records, stamps, retention, now, id) {
          removed := removed + {id};
        }
        todo := todo - {id};
      }
      assert removed == Expired(records, stamps, retention, now);
      records, stamps := records - removed, stamps - removed;
    }

    /** Moves an unreadable record out of the way. */
    method Quarantine(id: string)
      requires Valid() && id in corrupt
      modifies `corrupt
      ensures Valid() && corrupt == old(corrupt) - {id}
    {
      corrupt := corrupt - {id};
    }
  }
}
