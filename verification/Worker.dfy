/** The worker thread: the queue's critical sections around the retrying runner. */
module Workers {
  import opened Prelude
  import opened Job
  import opened Queues
  import opened Retries
  import JobStore

  /** The record is terminal, and the one the store has for the job. */
  predicate StoredTerminal(records: JobStore.Records, job: string, rec: JobRecord) {
    job in records && records[job] == rec && Settled(rec.state)
  }

  /** A taken job is run and settled. With an open record, either the store fails or the record
    * tells of the attempts. */
  method RunAndSettle(queue: JobQueue, runner: Runner, t: nat, job: string, maxRetries: nat, base: real)
    returns (settled: Option<JobRecord>, ghost outcomes: seq<Result<JobRecord, Exn>>)
    requires t in queue.threads && queue.threads[t].phase == Busy(job) && runner.store.Valid()
    modifies queue, runner.store, runner`ran
    ensures runner.store.Valid() && runner.ran == old(runner.ran) + outcomes && Decided(outcomes, maxRetries)
    ensures queue.View() == if settled.Some? then old(queue.View()) else Next(old(queue.View()), Die(t))
    ensures settled.Some? ==> StoredTerminal(runner.store.records, job, settled.value)
    ensures outcomes != [] && (old(Open(runner.store.records, job)) ==>
      || |runner.store.failures| > |old(runner.store.failures)|
      || (settled.Some? && Annotated(settled.value, job, outcomes)))
  {
    hide Decided, Next;
    var ran;
    ghost var written;
    ran, outcomes, written := RetryingRun(runner, job, maxRetries, base);
    SomeOutcome(outcomes, maxRetries);
    settled := queue.Settle(t, runner.store, if ran.Ok? then Returned(ran.value) else Raised(ran.error.message));
  }

  /** One turn of the worker loop, with nobody else at the queue meanwhile: the thread ends, or
    * dies on its job, or the job's waiters are handed the terminal record that is stored. */
  method WorkOnce(queue: JobQueue, runner: Runner, t: nat, maxRetries: nat, base: real)
    returns (job: Option<string>, ghost rec: JobRecord, ghost events: seq<Event>,
             ghost outcomes: seq<Result<JobRecord, Exn>>)
    requires t in queue.threads && queue.threads[t].phase.Top? && runner.store.Valid()
    modifies queue, runner.store, runner`ran
    ensures runner.store.Valid() && queue.View() == After(old(queue.View()), events)
    ensures job == (if old(NothingToTake(queue.View(), queue.threads[t].vault)) then None
                    else Some(old(At(queue.pending, queue.threads[t].vault)[0])))
    ensures job.None? ==> events == [Take(t)] && unchanged(runner.store) && runner.ran == old(runner.ran)
    ensures job.Some? ==> runner.ran == old(runner.ran) + outcomes && Decided(outcomes, maxRetries)
    ensures job.Some? && t !in queue.threads ==> events == [Take(t), Die(t)]
    ensures job.Some? && t in queue.threads ==>
      && events == [Take(t), Finish(t, rec), Signal(t)] && queue.threads[t].phase.Top?
      && job.value in queue.done && queue.done[job.value]
      && job.value in queue.results && queue.results[job.value] == rec
      && StoredTerminal(runner.store.records, job.value, rec)
    ensures job.Some? && old(Open(runner.store.records, job.value)) ==>
      || |runner.store.failures| > |old(runner.store.failures)|
      || (t in queue.threads && outcomes != [] && Annotated(rec, job.value, outcomes))
  {
    hide Decided, Annotated, Open, StoredTerminal;
    ghost var s0 := queue.View();
    rec, outcomes := NewJob("", ""), [];
    AfterOne(s0, Take(t));
    events := [Take(t)];
    job := queue.NextJob(t);
    if job.None? {
      return;
    }
    var settled;
    settled, outcomes := RunAndSettle(queue, runner, t, job.value, maxRetries, base);
    if settled.None? {
      AfterTwo(s0, Take(t), Die(t));
      events := [Take(t), Die(t)];
      return;
    }
    rec := settled.value;
    AfterTwo(s0, Take(t), Finish(t, rec));
    queue.FinishJob(t, settled.value);
    AfterThree(s0, Take(t), Finish(t, rec), Signal(t));
    events := [Take(t), Finish(t, rec), Signal(t)];
    queue.SignalDone(t);
  }

  lemma AfterOne(s: State, e: Event)
    requires Enabled(s, e)
    ensures After(s, [e]) == Next(s, e)
  {
    hide Enabled, Next;
    AfterNone(s);
    AfterSnoc(s, [], e);
    assert [] + [e] == [e];
  }

  lemma AfterTwo(s: State, e: Event, f: Event)
    requires Enabled(s, e) && Enabled(Next(s, e), f)
    ensures After(s, [e, f]) == Next(Next(s, e), f)
  {
    hide Enabled, Next;
    AfterOne(s, e);
    AfterSnoc(s, [e], f);
    assert [e] + [f] == [e, f];
  }

  lemma AfterThree(s: State, e: Event, f: Event, g: Event)
    requires Enabled(s, e) && Enabled(Next(s, e), f) && Enabled(Next(Next(s, e), f), g)
    ensures After(s, [e, f, g]) == Next(Next(Next(s, e), f), g)
  {
    hide Enabled, Next;
    AfterTwo(s, e, f);
    AfterSnoc(s, [e, f], g);
    assert [e, f] + [g] == [e, f, g];
  }
}
