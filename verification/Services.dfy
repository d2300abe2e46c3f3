/** The job runner of the service, and what a second run of a job can do. */
module ServiceRuns {
  import opened Prelude
  import opened Job
  import opened Git
  import opened Ingest
  import opened Agent
  import opened IngestTheorems
  import opened IngestProgress
  import opened IngestLogs
  import opened Drafting
  import opened Pipeline
  import opened Retries
  import JobStore
  import Organizing

  // ----- the pipeline refuses a job that has started ----------------------------------

  /** Nothing was touched, and the job is at most loaded. */
  ghost predicate Refused(q: Request, repo: Repo, records: JobStore.Records, index: Index, r: Run) {
    && r.repo == repo && r.records == records && r.index == index && q.job in records
    && (r.l.pc.Load? || (r.l.pc.MarkRunning? && r.l.job == records[q.job])
        || (r.l.pc.Done? && r.l.pc.ending.Unstarted?))
  }

  lemma StepRefuses(q: Request, repo: Repo, records: JobStore.Records, index: Index, r: Run, e: Event)
    requires Refused(q, repo, records, index, r) && records[q.job].state != Queued
    ensures Refused(q, repo, records, index, Step(q, r, e))
  {
    hide IdsAscend;
  }

  /** A run on a record that is not queued raises before it touches anything: re-running a
    * job whose first run raised cannot succeed. */
  lemma {:induction false} SecondRunIsRefused(q: Request, repo: Repo, records: JobStore.Records, index: Index,
                                              events: seq<Event>)
    requires q.job in records && records[q.job].state != Queued
    ensures Refused(q, repo, records, index, Exec(q, Start(q, repo, records, index), events))
  {
    hide Step;
    if events == [] {
    } else {
      SecondRunIsRefused(q, repo, records, index, Init(events));
      StepRefuses(q, repo, records, index, Exec(q, Start(q, repo, records, index), Init(events)), Last(events));
    }
  }

  // ----- the service's runner -----------------------------------------------------------

  /** What a finished run is to the caller. */
  function Outcome(ending: Ending): Result<JobRecord, Exn> {
    match ending
    case Returned(record) => Ok(record)
    case Unstarted(exn) => Err(exn)
    case Reraised(exn) => Err(exn)
    case Escaped(exn) => Err(exn)
    case RollbackRaised(exn) => Err(exn)
    case RecordRaised(exn) => Err(exn)
  }

  /** No attempt got as far as a configuration: each raised why it could not be loaded. */
  predicate NeverConfigured(before: seq<Exn>, after: seq<Exn>, outcomes: seq<Result<JobRecord, Exn>>) {
    && |after| == |before| + |outcomes| && before <= after
    && forall i :: 0 <= i < |outcomes| ==> outcomes[i] == Err(after[|before| + i])
  }

  lemma NoAttemptYet(unconfigured: seq<Exn>)
    ensures NeverConfigured(unconfigured, unconfigured, [])
  {
  }

  lemma NotConfiguredAgain(before: seq<Exn>, now: seq<Exn>, outcomes: seq<Result<JobRecord, Exn>>, exn: Exn)
    requires NeverConfigured(before, now, outcomes)
    ensures NeverConfigured(before, now + [exn], outcomes + [Err(exn)])
  {
  }

  /** The logs are those of a run, after which the job store may have failed again. */
  ghost predicate LoggedBy(q: Request, l0: Logs, s0: Run, events: seq<Event>, l: Logs) {
    var n := NotedAll(q, l0, s0, events);
    l == n.(store := l.store) && n.store <= l.store
  }

  lemma LoggedAtOnce(q: Request, l0: Logs, s0: Run, events: seq<Event>)
    ensures LoggedBy(q, l0, s0, events, NotedAll(q, l0, s0, events))
  {
    hide NotedAll;
  }

  lemma LoggedStill(q: Request, l0: Logs, s0: Run, events: seq<Event>, l: Logs, store: seq<Exn>)
    requires LoggedBy(q, l0, s0, events, l) && l.store <= store
    ensures LoggedBy(q, l0, s0, events, l.(store := store))
  {
    hide NotedAll;
  }

  datatype PendingIngest = PendingIngest(q: Request, settings: Organizing.Settings)

  /** The service for one vault. */
  class Services {
    const pipeline: IngestPipeline
    const client: Client
    /** The requests held in memory; a restart loses them. */
    var pending: map<string, PendingIngest>
    /** Why the configuration could not be loaded, when it could not. */
    ghost var unconfigured: seq<Exn>

    constructor (pipeline: IngestPipeline, client: Client)
      ensures this.pipeline == pipeline && this.client == client && pending == map[] && unconfigured == []
    {
      this.pipeline, this.client, pending, unconfigured := pipeline, client, map[], [];
    }

    /** The start of an ingest of the job in the present state. */
    ghost function Before(job: string): Run
      requires job in pending
      reads `pending, pipeline.repo, pipeline.jobs, pipeline.index
    {
      var q := pending[job].q;
      Start(q, pipeline.repo.repo, pipeline.jobs.records, pipeline.index.Of(q.vault))
    }

    /** The vault is as a finished ingest from `s0` left it. */
    ghost predicate LeftBy(q: Request, s0: Run, ending: Ending, events: seq<Event>)
      reads pipeline.repo, pipeline.index
    {
      var n := Exec(q, s0, events);
      n.l.pc == Done(ending) && pipeline.repo.repo == n.repo && pipeline.index.Of(q.vault) == n.index
    }

    method LoadConfig() returns (r: Result<(), Exn>)
      modifies `unconfigured
      ensures unconfigured == old(unconfigured) + Raising(r)
    {
      if * {
        var exn: Exn := *;
        unconfigured := unconfigured + [exn];
        return Err(exn);
      }
      r := Ok(());
    }

    /** Fails a job whose request is gone, unless the store fails or the job is settled. */
    method OrphanFail(job: string) returns (r: Result<JobRecord, Exn>)
      requires pipeline.jobs.Valid()
      modifies pipeline.jobs
      ensures pipeline.jobs.Valid()
      ensures r.Ok? ==> r.value.state == Failed && r.value.id == job
      ensures r.Ok? && job in old(pipeline.jobs.records) ==>
        r.value
          == FailedWith(old(pipeline.jobs.records)[job], "restart",
                        "ingest request was lost on restart").(state := Failed)
      ensures r.Ok? && job in old(pipeline.jobs.records) ==>
        !Settled(old(pipeline.jobs.records)[job].state)
        && pipeline.jobs.records == old(pipeline.jobs.records)[job := r.value]
      ensures r.Err? || job !in old(pipeline.jobs.records) ==> pipeline.jobs.records == old(pipeline.jobs.records)
      ensures r.Ok? ==> pipeline.jobs.failures == old(pipeline.jobs.failures)
      ensures r.Err? ==>
        || pipeline.jobs.failures == old(pipeline.jobs.failures) + [r.error]
        || (pipeline.jobs.failures == old(pipeline.jobs.failures)
            && job in pipeline.jobs.records && Settled(pipeline.jobs.records[job].state))
    {
      var loaded :- pipeline.jobs.Load(job);
      if loaded.None? {
        return Ok(NewJob(job, "").(state := Failed));
      }
      var base := loaded.value;
      if base.state != Running {
        base :- TransitionedTo(base, Running);
      }
      var failed := TransitionedTo(FailedWith(base, "restart", "ingest request was lost on restart"), Failed);
      r := pipeline.jobs.Update(failed.value);
    }

    /** Runs a job once: its request is dropped whatever happens, so a second attempt after a
      * transient failure finds none and fails the job instead of ingesting. With a request,
      * `ran` is how the ingest of it ended; either way the contract of a `Runner` is met. */
    method RunJob(job: string) returns (r: Result<JobRecord, Exn>, ghost ran: Option<Ending>, ghost events: seq<Event>)
      requires pipeline.jobs.Valid() && ValidRepo(pipeline.repo.repo)
      requires forall id :: id in pending ==>
        pending[id].q.job == id && SettingsFor(pending[id].q, pending[id].settings)
      modifies this, client, pipeline, pipeline.jobs, pipeline.index, pipeline.repo
      ensures pipeline.jobs.Valid() && ValidRepo(pipeline.repo.repo)
      ensures ran.Some? ==> job in old(pending) && pending == old(pending) - {job} && r == Outcome(ran.value)
      ensures ran.Some? ==> LeftBy(old(pending)[job].q, old(Before(job)), ran.value, events)
      ensures ran.Some? ==> pipeline.jobs.records == Exec(old(pending)[job].q, old(Before(job)), events).records
      ensures ran.None? ==> pending == old(pending) && unchanged(pipeline.repo) && unchanged(pipeline.index)
      ensures ran.None? && job in old(pending) ==>
        r.Err? && unchanged(pipeline.jobs) && unconfigured == old(unconfigured) + [r.error]
      ensures ran.Some? || job !in old(pending) ==> unconfigured == old(unconfigured)
      ensures ran.None? ==> pipeline.Seen() == old(pipeline.Seen()).(store := pipeline.jobs.failures)
      ensures ran.None? ==> old(pipeline.jobs.failures) <= pipeline.jobs.failures
      ensures ran.Some? ==>
        pipeline.Seen() == NotedAll(old(pending)[job].q, old(pipeline.Seen()), old(Before(job)), events)
      ensures ran.Some? && old(pipeline.Waits(pending[job].q)) && NoFailure(old(pipeline.Seen()), pipeline.Seen()) ==>
        DraftedAndCommitted(old(pending)[job].q, old(pipeline.repo.repo), old(pipeline.Seen()), pipeline.Seen(),
                            pipeline.repo.repo.chain, ran.value)
      ensures job !in old(pending) && r.Err? ==>
        || pipeline.jobs.failures == old(pipeline.jobs.failures) + [r.error]
        || (job in pipeline.jobs.records && Settled(pipeline.jobs.records[job].state))
      ensures job !in old(pending) && r.Err? && old(Open(pipeline.jobs.records, job)) ==>
        |pipeline.jobs.failures| > |old(pipeline.jobs.failures)|
      ensures job !in old(pending) && r.Ok? ==> r.value.state == Failed
      ensures old(Sound(job)) && r.Ok? ==> Settled(r.value.state) && r.value.id == job
      ensures old(Open(pipeline.jobs.records, job)) && old(Sound(job)) ==>
        job in pipeline.jobs.records
        && if r.Ok? then Settled(r.value.state) && pipeline.jobs.records[job] == r.value
           else Open(pipeline.jobs.records, job)
    {
      hide Exec, Startable, SettingsFor, Start, NotedAll, DraftedAndCommitted, MayRun, IsClean;
      ran, events := None, [];
      if job !in pending {
        r := OrphanFail(job);
        return;
      }
      var configured := LoadConfig();
      if configured.Err? {
        return Err(configured.error), None, [];
      }
      ghost var q := pending[job].q;
      ghost var repo, records, index := pipeline.repo.repo, pipeline.jobs.records, pipeline.index.Of(q.vault);
      var ending;
      ghost var surveyed, organized;
      ending, events, surveyed, organized := pipeline.Ingest(pending[job].q, client, pending[job].settings);
      ran := Some(ending);
      r := Outcome(ending);
      pending := pending - {job};
      if Startable(q, repo, records, index) {
        if ending.Returned? {
          ReturnedIsStored(q, repo, records, index, events);
        }
        if Open(records, job) {
          RunMeetsContract(q, repo, records, index, events);
        }
      }
    }

    /** The retry policy around `RunJob`: however many attempts are made, one of them at most
      * ingests, and the vault is what that one left. If it raised, no attempt succeeds. */
    method RunAttempts(job: string, maxRetries: nat)
      returns (result: RetryResult, ghost outcomes: seq<Result<JobRecord, Exn>>, ghost ran: Option<Ending>,
               ghost events: seq<Event>)
      requires pipeline.jobs.Valid() && ValidRepo(pipeline.repo.repo)
      requires forall id :: id in pending ==>
        pending[id].q.job == id && SettingsFor(pending[id].q, pending[id].settings)
      modifies this, client, pipeline, pipeline.jobs, pipeline.index, pipeline.repo
      ensures pipeline.jobs.Valid() && ValidRepo(pipeline.repo.repo)
      ensures Decided(outcomes, maxRetries) && Tells(result, outcomes)
      ensures ran.None? ==> unchanged(pipeline.repo) && unchanged(pipeline.index)
      ensures ran.Some? ==> job in old(pending) && pending == old(pending) - {job}
      ensures ran.Some? ==> LeftBy(old(pending)[job].q, old(Before(job)), ran.value, events)
      ensures ran.Some? ==>
        LoggedBy(old(pending)[job].q, old(pipeline.Seen()), old(Before(job)), events, pipeline.Seen())
      ensures ran.None? && job in old(pending) ==> NeverConfigured(old(unconfigured), unconfigured, outcomes)
      ensures job !in old(pending) && Last(outcomes).Err? && old(Open(pipeline.jobs.records, job)) ==>
        |pipeline.jobs.failures| > |old(pipeline.jobs.failures)|
      ensures ran.Some? && !ran.value.Returned? && Last(outcomes).Ok? ==> Last(outcomes).value.state == Failed
      ensures ran.Some? && ran.value.Returned? ==> Last(outcomes) == Ok(ran.value.record)
      ensures old(Sound(job)) && Last(outcomes).Ok? ==>
        Settled(Last(outcomes).value.state) && Last(outcomes).value.id == job
      ensures old(Sound(job)) && old(Open(pipeline.jobs.records, job)) ==>
        if Last(outcomes).Err? then Open(pipeline.jobs.records, job)
        else job in pipeline.jobs.records && pipeline.jobs.records[job] == Last(outcomes).value
    {
      hide Decided, Exec, Start, SettingsFor, LeftBy, Startable, Tells, NotedAll, DraftedAndCommitted, NeverConfigured,
        LoggedBy, IngestPipeline.Waits, Open, NoFailure, ValidRepo, JobStore.JobStore.Valid;
      var errors: seq<string> := [];
      outcomes, ran, events := [], None, [];
      NoAttemptYet(unconfigured);
      var n := 1;
      while true
        invariant 1 <= n <= maxRetries + 1 && |outcomes| == |errors| == n - 1
        invariant pipeline.jobs.Valid() && ValidRepo(pipeline.repo.repo)
        invariant forall i :: 0 <= i < |outcomes| ==>
          outcomes[i].Err? && outcomes[i].error.Retryable() && errors[i] == outcomes[i].error.message
        invariant ran.None? ==> pending == old(pending) && unchanged(pipeline.repo) && unchanged(pipeline.index)
        invariant ran.None? && job in pending ==> pipeline.jobs.records == old(pipeline.jobs.records)
        invariant ran.None? && job in pending ==> pipeline.Seen() == old(pipeline.Seen())
        invariant ran.None? && job in pending ==> NeverConfigured(old(unconfigured), unconfigured, outcomes)
        invariant job !in old(pending) ==> ran.None? && old(pipeline.jobs.failures) <= pipeline.jobs.failures
        invariant job !in old(pending) && old(Open(pipeline.jobs.records, job)) ==> Open(pipeline.jobs.records, job)
        invariant old(Sound(job)) ==> Sound(job)
        invariant old(Sound(job)) && old(Open(pipeline.jobs.records, job)) ==> Open(pipeline.jobs.records, job)
        invariant ran.Some? ==> job in old(pending) && pending == old(pending) - {job} && !ran.value.Returned?
        invariant ran.Some? ==> LeftBy(old(pending)[job].q, old(Before(job)), ran.value, events)
        invariant ran.Some? ==>
          LoggedBy(old(pending)[job].q, old(pipeline.Seen()), old(Before(job)), events, pipeline.Seen())
        decreases maxRetries + 1 - n
      {
        var r;
        ghost var ended, more;
        ghost var l, unread, before := pipeline.Seen(), unconfigured, outcomes;
        r, ended, more := RunJob(job);
        if ended.Some? {
          ran, events := ended, more;
          LoggedAtOnce(old(pending)[job].q, old(pipeline.Seen()), old(Before(job)), events);
        } else if ran.Some? {
          LoggedStill(old(pending)[job].q, old(pipeline.Seen()), old(Before(job)), events, l, pipeline.jobs.failures);
        } else if job in old(pending) {
          NotConfiguredAgain(old(unconfigured), unread, before, r.error);
        }
        outcomes := outcomes + [r];
        EndsThere(outcomes, maxRetries);
        if r.Ok? {
          result := RetryResult(Some(r.value), n, errors, None);
          SuccessTold(result, outcomes);
          return;
        }
        errors := errors + [r.error.message];
        if !r.error.Retryable() || n > maxRetries {
          result := RetryResult(None, n, errors, Some(r.error));
          FailureTold(result, outcomes);
          return;
        }
        n := n + 1;
      }
    }

    /** The retrying runner of the service. It stores a terminal record that tells of every
      * attempt, of which one at most ingested; with an open record the one way out is that
      * this record cannot be written. A job whose ingest raised ends FAILED. */
    method RetryingRunJob(job: string, maxRetries: nat)
      returns (r: Result<JobRecord, Exn>, ghost rec: JobRecord, ghost outcomes: seq<Result<JobRecord, Exn>>,
               ghost ran: Option<Ending>, ghost events: seq<Event>)
      requires pipeline.jobs.Valid() && ValidRepo(pipeline.repo.repo) && Sound(job)
      requires forall id :: id in pending ==>
        pending[id].q.job == id && SettingsFor(pending[id].q, pending[id].settings)
      modifies this, client, pipeline, pipeline.jobs, pipeline.index, pipeline.repo
      ensures pipeline.jobs.Valid() && ValidRepo(pipeline.repo.repo) && Decided(outcomes, maxRetries)
      ensures r.Ok? ==> r.value == rec && job in pipeline.jobs.records && pipeline.jobs.records[job] == rec
      ensures r.Ok? || old(Open(pipeline.jobs.records, job)) ==> Annotated(rec, job, outcomes)
      ensures r.Err? && old(Open(pipeline.jobs.records, job)) ==> JobStore.Put(pipeline.jobs.records, rec).Ok?
      ensures r.Err? && old(Open(pipeline.jobs.records, job)) ==>
        pipeline.jobs.failures != [] && Last(pipeline.jobs.failures) == r.error
      ensures ran.None? ==> unchanged(pipeline.repo) && unchanged(pipeline.index)
      ensures ran.None? && job in old(pending) ==> NeverConfigured(old(unconfigured), unconfigured, outcomes)
      ensures ran.Some? ==> job in old(pending) && pending == old(pending) - {job}
      ensures ran.Some? ==> LeftBy(old(pending)[job].q, old(Before(job)), ran.value, events)
      ensures ran.Some? ==>
        LoggedBy(old(pending)[job].q, old(pipeline.Seen()), old(Before(job)), events, pipeline.Seen())
      ensures ran.Some? && !ran.value.Returned? && r.Ok? ==> rec.state == Failed
    {
      hide Decided, Exec, Start, SettingsFor, Tells, Sound, LeftBy, LoggedBy, NeverConfigured;
      var result;
      result, outcomes, ran, events := RunAttempts(job, maxRetries);
      SomeOutcome(outcomes, maxRetries);
      ghost var l := pipeline.Seen();
      r, rec := RecordResult(pipeline.jobs, job, result, outcomes);
      if ran.Some? {
        LoggedStill(old(pending)[job].q, old(pipeline.Seen()), old(Before(job)), events, l, pipeline.jobs.failures);
      }
    }

    /** The index of the job's vault is sound. */
    ghost predicate Sound(job: string)
      reads this, pipeline, pipeline.index, pipeline.repo, pipeline.jobs
    {
      job in pending ==>
        Startable(pending[job].q, pipeline.repo.repo, pipeline.jobs.records, pipeline.index.Of(pending[job].q.vault))
    }
  }
}
