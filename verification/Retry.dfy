/** The retry policy: transient failures a bounded number of times, terminal ones never. */
module Retries {
  import opened Prelude
  import opened Job
  import JobStore

  /** The job has a record that is still to be settled. */
  predicate Open(records: JobStore.Records, job: string) {
    job in records && !Settled(records[job].state)
  }

  /** A runner: it raises, or returns a terminal record of the job. If the record was open,
    * it still is when the runner raises, and what it returns is what it stored. What it does
    * is otherwise arbitrary. */
  class Runner {
    const store: JobStore.JobStore
    /** How its runs ended. */
    ghost var ran: seq<Result<JobRecord, Exn>>

    constructor (store: JobStore.JobStore)
      ensures this.store == store && ran == []
    {
      this.store, ran := store, [];
    }

    method Run(job: string) returns (r: Result<JobRecord, Exn>)
      requires store.Valid()
      modifies store, `ran
      ensures store.Valid() && ran == old(ran) + [r] && old(store.failures) <= store.failures
      ensures r.Ok? ==> Settled(r.value.state) && r.value.id == job
      ensures old(Open(store.records, job)) && r.Ok? ==> job in store.records && store.records[job] == r.value
      ensures old(Open(store.records, job)) && r.Err? ==> Open(store.records, job)
    {
      var rec: JobRecord := *;
      if rec.id == job && Settled(rec.state) {
        if !Open(store.records, job) {
          ran := ran + [Ok(rec)];
          return Ok(rec);
        }
        var stored := store.Update(rec);
        if stored.Ok? {
          ran := ran + [stored];
          return stored;
        }
      }
      var exn: Exn := *;
      r := Err(exn);
      ran := ran + [r];
    }
  }

  datatype RetryResult = RetryResult(
    value: Option<JobRecord>, attempts: nat, errors: seq<string>, finalError: Option<Exn>)

  function Sum(xs: seq<real>): real {
    if xs == [] then 0.0 else Sum(Init(xs)) + Last(xs)
  }

  function Power2(k: nat): nat { if k == 0 then 1 else 2 * Power2(k - 1) }

  lemma SumNone()
    ensures Sum([]) == 0.0
  {
  }

  lemma SumAppend(xs: seq<real>, x: real)
    ensures Sum(xs + [x]) == Sum(xs) + x
  {
  }

  /** The attempts that were made: all but the last raised something retryable, and the last
    * settles the matter. */
  predicate Decided(outcomes: seq<Result<JobRecord, Exn>>, maxRetries: nat) {
    && 1 <= |outcomes| <= maxRetries + 1
    && (forall i :: 0 <= i < |outcomes| - 1 ==> outcomes[i].Err? && outcomes[i].error.Retryable())
    && (Last(outcomes).Err? && Last(outcomes).error.Retryable() ==> |outcomes| == maxRetries + 1)
  }

  lemma SomeOutcome(outcomes: seq<Result<JobRecord, Exn>>, maxRetries: nat)
    requires Decided(outcomes, maxRetries)
    ensures outcomes != []
  {
  }

  lemma PowerStep(k: nat)
    ensures Power2(0) == 1 && Power2(k + 1) == 2 * Power2(k)
  {
  }

  lemma EndsThere(outcomes: seq<Result<JobRecord, Exn>>, maxRetries: nat)
    requires 1 <= |outcomes| <= maxRetries + 1
    requires forall i :: 0 <= i < |outcomes| - 1 ==> outcomes[i].Err? && outcomes[i].error.Retryable()
    ensures Last(outcomes).Ok? || !Last(outcomes).error.Retryable() || |outcomes| > maxRetries ==>
      Decided(outcomes, maxRetries)
  {
  }

  /** The result says how many attempts were made, why each of them failed and how it ended. */
  predicate Tells(result: RetryResult, outcomes: seq<Result<JobRecord, Exn>>)
    requires outcomes != []
  {
    && result.attempts == |outcomes|
    && |result.errors| == (if Last(outcomes).Ok? then |outcomes| - 1 else |outcomes|)
    && (forall i :: 0 <= i < |result.errors| ==>
          outcomes[i].Err? && result.errors[i] == outcomes[i].error.message)
    && match Last(outcomes)
       case Ok(value) => result.value == Some(value) && result.finalError.None?
       case Err(exn) => result.value.None? && result.finalError == Some(exn)
  }

  lemma SuccessTold(result: RetryResult, outcomes: seq<Result<JobRecord, Exn>>)
    requires outcomes != [] && Last(outcomes).Ok?
    requires result == RetryResult(Some(Last(outcomes).value), |outcomes|, result.errors, None)
    requires |result.errors| == |outcomes| - 1
    requires forall i :: 0 <= i < |result.errors| ==>
      outcomes[i].Err? && result.errors[i] == outcomes[i].error.message
    ensures Tells(result, outcomes)
  {
  }

  lemma FailureTold(result: RetryResult, outcomes: seq<Result<JobRecord, Exn>>)
    requires outcomes != [] && Last(outcomes).Err?
    requires result == RetryResult(None, |outcomes|, result.errors, Some(Last(outcomes).error))
    requires |result.errors| == |outcomes|
    requires forall i :: 0 <= i < |result.errors| ==>
      outcomes[i].Err? && result.errors[i] == outcomes[i].error.message
    ensures Tells(result, outcomes)
  {
  }

  /** `run_with_retry`: the first decisive attempt ends it, and k retries sleep for
    * base * (2^k - 1) in all. */
  method RunWithRetry(runner: Runner, job: string, maxRetries: nat, base: real)
    returns (r: RetryResult, slept: seq<real>, ghost outcomes: seq<Result<JobRecord, Exn>>)
    requires runner.store.Valid()
    modifies runner.store, runner`ran
    ensures runner.store.Valid() && Decided(outcomes, maxRetries) && Tells(r, outcomes)
    ensures runner.ran == old(runner.ran) + outcomes && old(runner.store.failures) <= runner.store.failures
    ensures |slept| == r.attempts - 1 && Sum(slept) == base * (Power2(|slept|) - 1) as real
    ensures Last(outcomes).Ok? ==> Settled(Last(outcomes).value.state) && Last(outcomes).value.id == job
    ensures old(Open(runner.store.records, job)) && Last(outcomes).Ok? ==>
      job in runner.store.records && runner.store.records[job] == Last(outcomes).value
    ensures old(Open(runner.store.records, job)) && Last(outcomes).Err? ==> Open(runner.store.records, job)
  {
    hide Sum, Power2, Decided, Tells;
    var errors: seq<string> := [];
    slept, outcomes := [], [];
    SumNone();
    assert Power2(0) == 1 by {
      PowerStep(0);
    }
    var n := 1;
    var power := 1;
    while true
      invariant 1 <= n <= maxRetries + 1 && |outcomes| == |errors| == |slept| == n - 1
      invariant runner.ran == old(runner.ran) + outcomes && old(runner.store.failures) <= runner.store.failures
      invariant runner.store.Valid() && (old(Open(runner.store.records, job)) ==> Open(runner.store.records, job))
      invariant forall i :: 0 <= i < |outcomes| ==>
        outcomes[i].Err? && outcomes[i].error.Retryable() && errors[i] == outcomes[i].error.message
      invariant power == Power2(n - 1) && Sum(slept) == base * (power - 1) as real
      decreases maxRetries + 1 - n
    {
      var ran := runner.Run(job);
      outcomes := outcomes + [ran];
      EndsThere(outcomes, maxRetries);
      if ran.Ok? {
        r := RetryResult(Some(ran.value), n, errors, None);
        SuccessTold(r, outcomes);
        return;
      }
      errors := errors + [ran.error.message];
      if !ran.error.Retryable() || n > maxRetries {
        r := RetryResult(None, n, errors, Some(ran.error));
        FailureTold(r, outcomes);
        return;
      }
      SumAppend(slept, base * power as real);
      PowerStep(n - 1);
      slept := slept + [base * power as real];
      n, power := n + 1, 2 * power;
    }
  }

  /** A terminal record of the job that says how many attempts were made and why each of
    * them failed. */
  predicate Annotated(rec: JobRecord, job: string, outcomes: seq<Result<JobRecord, Exn>>)
    requires outcomes != []
  {
    && rec.id == job && Settled(rec.state) && rec.attempts == |outcomes|
    && |rec.attemptErrors| == (if Last(outcomes).Ok? then |outcomes| - 1 else |outcomes|)
    && (forall i :: 0 <= i < |rec.attemptErrors| ==>
          outcomes[i].Err? && rec.attemptErrors[i] == outcomes[i].error.message)
    && match Last(outcomes)
       case Ok(value) => rec == value.(attempts := rec.attempts, attemptErrors := rec.attemptErrors)
       case Err(exn) =>
         rec.state == Failed && rec.failureStage == Some("retry-exhausted") && rec.error == Some(exn.message)
  }

  /** Stores the terminal record of a retried job. What is returned is stored; when the job had
    * the record to settle, or the one returned, only writing it can fail. */
  method RecordResult(store: JobStore.JobStore, job: string, result: RetryResult,
                      ghost outcomes: seq<Result<JobRecord, Exn>>)
    returns (r: Result<JobRecord, Exn>, ghost rec: JobRecord)
    requires store.Valid() && outcomes != [] && Tells(result, outcomes)
    requires Last(outcomes).Ok? ==> Settled(Last(outcomes).value.state) && Last(outcomes).value.id == job
    modifies store
    ensures store.Valid() && (r.Ok? ==> store.failures == old(store.failures))
    ensures r.Err? ==>
      || store.failures == old(store.failures) + [r.error]
      || (store.failures == old(store.failures) && Last(outcomes).Err?
          && job in store.records && Settled(store.records[job].state))
    ensures r.Ok? ==> r.value == rec && job in store.records && store.records[job] == rec
    ensures r.Ok? || Last(outcomes).Ok? || old(Open(store.records, job)) ==> Annotated(rec, job, outcomes)
    ensures r.Err? ==> store.records == old(store.records)
    ensures r.Err? && Last(outcomes).Ok? && job in store.records && store.records[job] == Last(outcomes).value ==>
      JobStore.Put(store.records, rec).Ok?
    ensures r.Err? && Last(outcomes).Err? && Open(store.records, job) ==> JobStore.Put(store.records, rec).Ok?
  {
    if result.value.Some? {
      var annotated := result.value.value.(attempts := result.attempts, attemptErrors := result.errors);
      rec := annotated;
      r := store.Update(annotated);
      return;
    }
    rec := NewJob(job, "");
    var loaded :- store.Load(job);
    var current := if loaded.Some? then loaded.value else NewJob(job, "");
    if current.state != Running {
      current :- TransitionedTo(current, Running);
    }
    var failed := TransitionedTo(
      current.(attempts := result.attempts, attemptErrors := result.errors, failureStage := Some("retry-exhausted"),
               error := Some(result.finalError.value.message)),
      Failed);
    rec := failed.value;
    r := store.Update(failed.value);
  }

  /** `retrying_runner`: what it returns is a stored terminal record that tells of every
    * attempt, and the attempts are runs of the runner. With an open record the one way out is
    * that this record cannot be written. */
  method RetryingRun(runner: Runner, job: string, maxRetries: nat, base: real)
    returns (r: Result<JobRecord, Exn>, ghost outcomes: seq<Result<JobRecord, Exn>>, ghost rec: JobRecord)
    requires runner.store.Valid()
    modifies runner.store, runner`ran
    ensures runner.store.Valid() && Decided(outcomes, maxRetries) && runner.ran == old(runner.ran) + outcomes
    ensures r.Ok? ==> r.value == rec && job in runner.store.records && runner.store.records[job] == rec
    ensures r.Ok? || old(Open(runner.store.records, job)) ==> Annotated(rec, job, outcomes)
    ensures r.Err? && old(Open(runner.store.records, job)) ==>
      && JobStore.Put(runner.store.records, rec).Ok?
      && |runner.store.failures| > |old(runner.store.failures)| && Last(runner.store.failures) == r.error
    ensures old(runner.store.failures) <= runner.store.failures
  {
    hide Tells, Annotated, Sum, Power2;
    var result, slept;
    result, slept, outcomes := RunWithRetry(runner, job, maxRetries, base);
    r, rec := RecordResult(runner.store, job, result, outcomes);
  }
}
