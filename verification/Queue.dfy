/** The per-vault FIFO queue: any number of worker threads interleave at its critical
  * sections. */
module Queues {
  import opened Prelude
  import opened Job
  import JobStore

  /** Where a worker thread is: about to look for a job, running one with the lock released,
    * or about to signal that one is done. */
  datatype Phase = Top | Busy(job: string) | Ready(job: string)

  datatype Thread = Thread(vault: string, phase: Phase)

  /** How a job left the queue: with a result, or with a worker that died on it. */
  datatype Exit = Exit(job: string, finished: bool)

  /** The queue's fields, the threads that are alive, and what happened so far. */
  datatype State = State(
    pending: map<string, seq<string>>, running: map<string, string>, workers: map<string, nat>,
    done: map<string, bool>, results: map<string, JobRecord>, vaultOf: map<string, string>, stopping: bool,
    threads: map<nat, Thread>, nextThread: nat,
    submitted: map<string, seq<string>>, left: map<string, seq<Exit>>, orphaned: set<string>)

  datatype Event =
    | Submit(vault: string, job: string)
    | Take(thread: nat)                     // first critical section of the worker loop
    | Finish(thread: nat, rec: JobRecord)   // second critical section
    | Signal(thread: nat)
    | Die(thread: nat)                      // recording the failure of a raising runner raised
    | Stop

  const Empty := State(map[], map[], map[], map[], map[], map[], false, map[], 0, map[], map[], {})

  function At<T>(m: map<string, seq<T>>, v: string): seq<T> { if v in m then m[v] else [] }

  /** A registered worker that is alive. */
  predicate HasWorker(s: State, v: string) { v in s.workers && s.workers[v] in s.threads }

  function EnsureWorker(s: State, v: string): State {
    if HasWorker(s, v) then s
    else s.(threads := s.threads[s.nextThread := Thread(v, Top)], workers := s.workers[v := s.nextThread],
            nextThread := s.nextThread + 1, orphaned := s.orphaned - {v})
  }

  predicate Enabled(s: State, e: Event) {
    match e
    case Submit(_, _) => !s.stopping
    case Take(t) => t in s.threads && s.threads[t].phase.Top?
    case Finish(t, _) => t in s.threads && s.threads[t].phase.Busy?
    case Signal(t) => t in s.threads && s.threads[t].phase.Ready?
    case Die(t) => t in s.threads && s.threads[t].phase.Busy?
    case Stop => true
  }

  function Queued(s: State, v: string, job: string): State {
    s.(pending := s.pending[v := At(s.pending, v) + [job]], done := s.done[job := false],
       vaultOf := s.vaultOf[job := v], submitted := s.submitted[v := At(s.submitted, v) + [job]])
  }

  function Submitted(s: State, v: string, job: string): State {
    EnsureWorker(Queued(s, v, job), v)
  }

  predicate NothingToTake(s: State, v: string) { s.stopping || At(s.pending, v) == [] }

  /** The worker unregisters and ends ... */
  function Ended(s: State, t: nat): State
    requires t in s.threads
  {
    s.(workers := s.workers - {s.threads[t].vault}, threads := s.threads - {t})
  }

  /** ... or takes the first job in line. */
  function Popped(s: State, t: nat): State
    requires t in s.threads && !NothingToTake(s, s.threads[t].vault)
  {
    var v := s.threads[t].vault;
    var job := s.pending[v][0];
    s.(pending := s.pending[v := s.pending[v][1..]], running := s.running[v := job],
       threads := s.threads[t := Thread(v, Busy(job))])
  }

  function Taken(s: State, t: nat): State
    requires t in s.threads
  {
    if NothingToTake(s, s.threads[t].vault) then Ended(s, t) else Popped(s, t)
  }

  function Finished(s: State, t: nat, rec: JobRecord): State
    requires t in s.threads && s.threads[t].phase.Busy?
  {
    var v := s.threads[t].vault;
    var job := s.threads[t].phase.job;
    s.(running := s.running - {v}, results := s.results[job := rec],
       threads := s.threads[t := Thread(v, Ready(job))], left := s.left[v := At(s.left, v) + [Exit(job, true)]])
  }

  function Signalled(s: State, t: nat): State
    requires t in s.threads && s.threads[t].phase.Ready?
  {
    s.(done := s.done[s.threads[t].phase.job := true], threads := s.threads[t := Thread(s.threads[t].vault, Top)])
  }

  function Died(s: State, t: nat): State
    requires t in s.threads && s.threads[t].phase.Busy?
  {
    var v := s.threads[t].vault;
    s.(threads := s.threads - {t}, left := s.left[v := At(s.left, v) + [Exit(s.threads[t].phase.job, false)]],
       orphaned := s.orphaned + {v})
  }

  function Next(s: State, e: Event): State
    requires Enabled(s, e)
  {
    match e
    case Submit(v, job) => Submitted(s, v, job)
    case Take(t) => Taken(s, t)
    case Finish(t, rec) => Finished(s, t, rec)
    case Signal(t) => Signalled(s, t)
    case Die(t) => Died(s, t)
    case Stop => s.(stopping := true)
  }

  // ----- safety ---------------------------------------------------------------------

  /** The job between pop and finish on a vault, if any. */
  function InFlight(s: State, v: string): seq<string> {
    if HasWorker(s, v) && s.threads[s.workers[v]].phase.Busy? then [s.threads[s.workers[v]].phase.job] else []
  }

  function Jobs(exits: seq<Exit>): seq<string> { Map((x: Exit) => x.job, exits) }

  /** A worker thread is its vault's registered one. */
  predicate ThreadOk(s: State, t: nat)
    requires t in s.threads
  {
    var v := s.threads[t].vault;
    && t < s.nextThread && v in s.workers && s.workers[v] == t
    && (s.threads[t].phase.Busy? ==> v in s.running && s.running[v] == s.threads[t].phase.job)
    && (s.threads[t].phase.Ready? ==> s.threads[t].phase.job in s.results)
    && (!s.threads[t].phase.Top? ==> s.threads[t].phase.job in s.done)
  }

  /** Submitted to a vault and not yet out of it. */
  predicate Outstanding(s: State, job: string) {
    exists v :: v in s.submitted && job in InFlight(s, v) + At(s.pending, v)
  }

  predicate Signalling(s: State, job: string) {
    exists t :: t in s.threads && s.threads[t].phase == Ready(job)
  }

  predicate Lost(s: State, job: string) {
    exists v :: v in s.left && Exit(job, false) in s.left[v]
  }

  /** First in, first out, nothing lost, nothing twice. */
  predicate Fifo(s: State, v: string) {
    Jobs(At(s.left, v)) + InFlight(s, v) + At(s.pending, v) == At(s.submitted, v)
  }

  /** The registered worker of a vault works on that vault. */
  predicate WorkerOk(s: State, v: string)
    requires v in s.workers
  {
    s.workers[v] < s.nextThread && (s.workers[v] in s.threads ==> s.threads[s.workers[v]].vault == v)
  }

  ghost predicate ThreadInv(s: State) {
    && (forall t :: t in s.threads ==> ThreadOk(s, t))
    && (forall v :: v in s.workers ==> WorkerOk(s, v))
    && (forall v :: Known(s, v))
  }

  /** Every queued job has an event to wait on. */
  predicate Known(s: State, v: string) {
    forall i :: 0 <= i < |At(s.pending, v)| ==> At(s.pending, v)[i] in s.done
  }

  ghost predicate FifoInv(s: State) { forall v :: Fifo(s, v) }

  /** No wakeup is lost, unless with a worker that died; and then it is. */
  predicate Awake(s: State, v: string) {
    && (At(s.pending, v) != [] && !s.stopping ==> HasWorker(s, v) || v in s.orphaned)
    && (v in s.orphaned ==> !HasWorker(s, v))
  }

  ghost predicate WakeInv(s: State) { forall v :: Awake(s, v) }

  /** A job is signalled once its result is there; until then it is outstanding, about to be
    * signalled, or lost with its worker. */
  predicate DoneOk(s: State, job: string)
    requires job in s.done
  {
    if s.done[job] then job in s.results else Outstanding(s, job) || Signalling(s, job) || Lost(s, job)
  }

  ghost predicate DoneInv(s: State) { forall job :: job in s.done ==> DoneOk(s, job) }

  ghost predicate Inv(s: State) { ThreadInv(s) && FifoInv(s) && WakeInv(s) && DoneInv(s) }

  lemma JobsAppend(exits: seq<Exit>, x: Exit)
    ensures Jobs(exits + [x]) == Jobs(exits) + [x.job]
  {
  }

  lemma InitInv()
    ensures Inv(Empty)
  {
  }

  /** The invariant at the thread and the vault an event is about. */
  lemma InvAt(s: State, e: Event)
    requires ThreadInv(s) && Enabled(s, e)
    ensures !e.Submit? && !e.Stop? ==> ThreadOk(s, e.thread) && Known(s, s.threads[e.thread].vault)
    ensures e.Submit? && HasWorker(s, e.vault) ==> ThreadOk(s, s.workers[e.vault])
    ensures s.nextThread !in s.threads
    ensures forall v :: v in s.workers ==> WorkerOk(s, v)
  {
  }

  /** Two live threads never serve the same vault. */
  lemma ThreadsApart(s: State, m: nat, n: nat)
    requires ThreadInv(s) && m in s.threads && n in s.threads && m != n
    ensures s.threads[m].vault != s.threads[n].vault
  {
  }

  lemma SubmitKeepsThread(s: State, v: string, job: string, n: nat)
    requires s.nextThread !in s.threads && n in Submitted(s, v, job).threads
    requires n in s.threads ==> ThreadOk(s, n)
    ensures ThreadOk(Submitted(s, v, job), n)
  {
    QueuedKeeps(s, v, job);
    var q := Queued(s, v, job);
    assert n in s.threads ==> ThreadOk(q, n);
    hide Queued;
    HiringKeepsThread(q, v, n);
  }

  lemma HiringKeepsThread(s: State, v: string, n: nat)
    requires s.nextThread !in s.threads && n in EnsureWorker(s, v).threads
    requires n in s.threads ==> ThreadOk(s, n)
    ensures ThreadOk(EnsureWorker(s, v), n)
  {
  }

  lemma EndKeepsThread(s: State, t: nat, n: nat)
    requires t in s.threads && ThreadOk(s, t) && n in Ended(s, t).threads && ThreadOk(s, n)
    ensures ThreadOk(Ended(s, t), n)
  {
  }

  lemma PopKeepsThread(s: State, t: nat, n: nat)
    requires t in s.threads && ThreadOk(s, t) && Known(s, s.threads[t].vault) && !NothingToTake(s, s.threads[t].vault)
    requires n in s.threads && ThreadOk(s, n)
    ensures ThreadOk(Popped(s, t), n)
  {
  }

  lemma TakeKeepsThread(s: State, t: nat, n: nat)
    requires t in s.threads && ThreadOk(s, t) && Known(s, s.threads[t].vault) && n in Taken(s, t).threads
    requires n in s.threads && ThreadOk(s, n)
    ensures ThreadOk(Taken(s, t), n)
  {
    hide Ended, Popped, NothingToTake, ThreadOk, Known;
    if NothingToTake(s, s.threads[t].vault) {
      EndKeepsThread(s, t, n);
    } else {
      PopKeepsThread(s, t, n);
    }
  }

  lemma RunKeepsThread(s: State, e: Event, n: nat)
    requires Enabled(s, e) && !e.Submit? && !e.Take? && !e.Stop? && ThreadOk(s, e.thread)
    requires n in s.threads && n in Next(s, e).threads && ThreadOk(s, n)
    ensures ThreadOk(Next(s, e), n)
  {
  }

  lemma ThreadKept(s: State, e: Event, n: nat)
    requires ThreadInv(s) && Enabled(s, e) && n in Next(s, e).threads
    ensures ThreadOk(Next(s, e), n)
  {
    hide ThreadInv, ThreadOk, WorkerOk, Known, Submitted, Taken, Finished, Signalled, Died;
    InvAt(s, e);
    if n in s.threads {
      ThreadAt(s, n);
    }
    if !e.Submit? {
      NoNewThread(s, e, n);
    }
    match e
    case Submit(v, job) => SubmitKeepsThread(s, v, job, n);
    case Take(t) => TakeKeepsThread(s, t, n);
    case Stop => StopKeepsThread(s, n);
    case _ => RunKeepsThread(s, e, n);
  }

  lemma StopKeepsThread(s: State, n: nat)
    requires n in s.threads && ThreadOk(s, n)
    ensures ThreadOk(s.(stopping := true), n)
  {
  }

  lemma NoNewThread(s: State, e: Event, n: nat)
    requires Enabled(s, e) && !e.Submit? && n in Next(s, e).threads
    ensures n in s.threads
  {
    hide Taken;
    if e.Take? {
      TakeStartsNone(s, e.thread, n);
    }
  }

  lemma TakeStartsNone(s: State, t: nat, n: nat)
    requires t in s.threads && n in Taken(s, t).threads
    ensures n in s.threads
  {
    hide NothingToTake, Popped;
    if !NothingToTake(s, s.threads[t].vault) {
      PopStartsNone(s, t);
    }
  }

  lemma PopStartsNone(s: State, t: nat)
    requires t in s.threads && !NothingToTake(s, s.threads[t].vault)
    ensures Popped(s, t).threads.Keys == s.threads.Keys
  {
  }

  lemma ThreadAt(s: State, n: nat)
    requires ThreadInv(s) && n in s.threads
    ensures ThreadOk(s, n)
  {
  }

  lemma WorkerKept(s: State, e: Event, v: string)
    requires ThreadInv(s) && Enabled(s, e) && v in Next(s, e).workers
    ensures WorkerOk(Next(s, e), v)
  {
    hide ThreadInv, Submitted, Taken, Known, ThreadOk;
    InvAt(s, e);
    if e.Submit? {
      SubmitKeepsWorker(s, e.vault, e.job, v);
    } else if e.Take? {
      TakeKeepsWorker(s, e.thread, v);
    }
  }

  lemma SubmitKeepsWorker(s: State, u: string, job: string, v: string)
    requires s.nextThread !in s.threads && v in Submitted(s, u, job).workers && (v in s.workers ==> WorkerOk(s, v))
    ensures WorkerOk(Submitted(s, u, job), v)
  {
  }

  lemma TakeKeepsWorker(s: State, t: nat, v: string)
    requires t in s.threads && v in Taken(s, t).workers && (v in s.workers ==> WorkerOk(s, v))
    ensures WorkerOk(Taken(s, t), v)
  {
    hide Ended, Popped, WorkerOk, NothingToTake;
    if NothingToTake(s, s.threads[t].vault) {
      EndKeepsWorker(s, t, v);
    } else {
      PopKeepsWorker(s, t, v);
    }
  }

  lemma EndKeepsWorker(s: State, t: nat, v: string)
    requires t in s.threads && v in Ended(s, t).workers && (v in s.workers ==> WorkerOk(s, v))
    ensures WorkerOk(Ended(s, t), v)
  {
  }

  lemma PopKeepsWorker(s: State, t: nat, v: string)
    requires t in s.threads && !NothingToTake(s, s.threads[t].vault)
    requires v in Popped(s, t).workers && (v in s.workers ==> WorkerOk(s, v))
    ensures WorkerOk(Popped(s, t), v)
  {
  }

  /** Jobs in line are known: they stay, are joined by one that is, or move up. */
  lemma KnownKept(s: State, e: Event, v: string)
    requires Known(s, v) && Enabled(s, e)
    ensures Known(Next(s, e), v)
  {
    hide Submitted, Taken;
    if e.Submit? {
      SubmitKeepsKnown(s, e.vault, e.job, v);
    } else if e.Take? {
      TakeKeepsKnown(s, e.thread, v);
    } else {
      assert At(Next(s, e).pending, v) == At(s.pending, v);
    }
  }

  lemma SubmitKeepsKnown(s: State, u: string, job: string, v: string)
    requires Known(s, v)
    ensures Known(Submitted(s, u, job), v)
  {
    var now, was := At(Submitted(s, u, job).pending, v), At(s.pending, v);
    assert forall i :: 0 <= i < |was| ==> now[i] == was[i] && was[i] in s.done;
  }

  lemma TakeKeepsKnown(s: State, t: nat, v: string)
    requires Known(s, v) && t in s.threads
    ensures Known(Taken(s, t), v)
  {
    var now, was := At(Taken(s, t).pending, v), At(s.pending, v);
    assert now == was || now == was[1..];
    assert now != was ==> forall i :: 0 <= i < |now| ==> now[i] == was[i + 1] && was[i + 1] in s.done;
  }

  lemma ThreadsKept(s: State, e: Event)
    requires ThreadInv(s) && Enabled(s, e)
    ensures ThreadInv(Next(s, e))
  {
    hide Next, ThreadOk, WorkerOk, Known;
    forall n | n in Next(s, e).threads
      ensures ThreadOk(Next(s, e), n)
    {
      ThreadKept(s, e, n);
    }
    forall v | v in Next(s, e).workers
      ensures WorkerOk(Next(s, e), v)
    {
      WorkerKept(s, e, v);
    }
    forall v
      ensures Known(Next(s, e), v)
    {
      assert Known(s, v);
      KnownKept(s, e, v);
    }
  }

  lemma FifoFinish(s: State, t: nat, rec: JobRecord, v: string)
    requires ThreadInv(s) && Fifo(s, v) && Enabled(s, Finish(t, rec))
    ensures Fifo(Finished(s, t, rec), v)
  {
    hide Jobs, ThreadInv, Known;
    InvAt(s, Finish(t, rec));
    JobsAppend(At(s.left, v), Exit(s.threads[t].phase.job, true));
  }

  lemma FifoDie(s: State, t: nat, v: string)
    requires ThreadInv(s) && Fifo(s, v) && Enabled(s, Die(t))
    ensures Fifo(Died(s, t), v)
  {
    hide Jobs, ThreadInv, Known;
    InvAt(s, Die(t));
    JobsAppend(At(s.left, v), Exit(s.threads[t].phase.job, false));
  }

  /** Leaving without a job, or with the first in line. */
  lemma FifoTake(s: State, t: nat, v: string)
    requires ThreadInv(s) && Fifo(s, v) && Enabled(s, Take(t))
    ensures Fifo(Taken(s, t), v)
  {
    hide Jobs, ThreadInv, Known, Taken, Fifo, ThreadOk;
    InvAt(s, Take(t));
    if s.threads[t].vault == v {
      TopIsIdle(s, t);
      TakeOwn(s, t);
    } else {
      TakeOther(s, t, v);
    }
    FifoSays(s, Taken(s, t), v);
  }

  lemma TakeOwn(s: State, t: nat)
    requires Enabled(s, Take(t)) && ThreadOk(s, t)
    ensures var v := s.threads[t].vault; var n := Taken(s, t);
      && InFlight(n, v) + At(n.pending, v) == At(s.pending, v)
      && n.left == s.left && n.submitted == s.submitted
  {
    hide Ended, Popped, ThreadOk;
    if NothingToTake(s, s.threads[t].vault) {
      EndOwn(s, t);
    } else {
      PopOwn(s, t);
    }
    hide InFlight;
  }

  lemma TopIsIdle(s: State, t: nat)
    requires t in s.threads && ThreadOk(s, t) && s.threads[t].phase.Top?
    ensures InFlight(s, s.threads[t].vault) == []
  {
  }

  lemma EndOwn(s: State, t: nat)
    requires t in s.threads
    ensures InFlight(Ended(s, t), s.threads[t].vault) == []
    ensures var n := Ended(s, t); n.left == s.left && n.submitted == s.submitted && n.pending == s.pending
  {
  }

  lemma PopOwn(s: State, t: nat)
    requires t in s.threads && ThreadOk(s, t) && !NothingToTake(s, s.threads[t].vault)
    ensures var v := s.threads[t].vault; var n := Popped(s, t);
      && InFlight(n, v) + At(n.pending, v) == At(s.pending, v)
      && n.left == s.left && n.submitted == s.submitted
  {
  }

  lemma TakeOther(s: State, t: nat, v: string)
    requires Enabled(s, Take(t)) && s.threads[t].vault != v
    requires v in s.workers ==> WorkerOk(s, v)
    ensures var n := Taken(s, t);
      && InFlight(n, v) == InFlight(s, v) && At(n.pending, v) == At(s.pending, v)
      && n.left == s.left && n.submitted == s.submitted
  {
    hide Ended, Popped, InFlight;
    if NothingToTake(s, s.threads[t].vault) {
      EndOther(s, t, v);
    } else {
      PopOther(s, t, v);
    }
  }

  lemma EndOther(s: State, t: nat, v: string)
    requires t in s.threads && s.threads[t].vault != v && (v in s.workers ==> WorkerOk(s, v))
    ensures var n := Ended(s, t);
      InFlight(n, v) == InFlight(s, v) && n.pending == s.pending && n.left == s.left && n.submitted == s.submitted
  {
  }

  lemma PopOther(s: State, t: nat, v: string)
    requires t in s.threads && s.threads[t].vault != v && !NothingToTake(s, s.threads[t].vault)
    requires v in s.workers ==> WorkerOk(s, v)
    ensures var n := Popped(s, t);
      && InFlight(n, v) == InFlight(s, v) && At(n.pending, v) == At(s.pending, v)
      && n.left == s.left && n.submitted == s.submitted
  {
  }

  lemma FifoSays(s: State, n: State, v: string)
    requires Fifo(s, v) && n.left == s.left && n.submitted == s.submitted
    requires InFlight(n, v) + At(n.pending, v) == InFlight(s, v) + At(s.pending, v)
    ensures Fifo(n, v)
  {
    hide Jobs, InFlight;
    var before := Jobs(At(s.left, v));
    assert before + InFlight(n, v) + At(n.pending, v) == before + (InFlight(n, v) + At(n.pending, v));
    assert before + InFlight(s, v) + At(s.pending, v) == before + (InFlight(s, v) + At(s.pending, v));
  }

  lemma HiringKeepsInFlight(s: State, u: string, v: string)
    requires s.nextThread !in s.threads && (v in s.workers ==> WorkerOk(s, v))
    ensures var n := EnsureWorker(s, u);
      InFlight(n, v) == InFlight(s, v) && n.pending == s.pending && n.left == s.left && n.submitted == s.submitted
  {
  }

  lemma QueuedKeeps(s: State, u: string, job: string)
    ensures var n := Queued(s, u, job);
      && n.threads == s.threads && n.workers == s.workers && n.nextThread == s.nextThread && n.left == s.left
      && n.stopping == s.stopping && n.orphaned == s.orphaned && n.results == s.results && n.running == s.running
  {
  }

  lemma FifoSubmit(s: State, u: string, job: string, v: string)
    requires ThreadInv(s) && Fifo(s, v)
    ensures Fifo(Submitted(s, u, job), v)
  {
    hide Jobs, ThreadInv, Known, EnsureWorker, InFlight, ThreadOk;
    InvAt(s, Stop);
    var n := Queued(s, u, job);
    QueuedKeeps(s, u, job);
    SameThreads(s, n, v);
    HiringKeepsInFlight(n, u, v);
    if u == v {
      assert Jobs(At(s.left, v)) + InFlight(s, v) + (At(s.pending, v) + [job])
        == Jobs(At(s.left, v)) + InFlight(s, v) + At(s.pending, v) + [job];
    }
  }

  lemma SameThreads(s: State, n: State, v: string)
    requires n.threads == s.threads && n.workers == s.workers && n.nextThread == s.nextThread
    ensures InFlight(n, v) == InFlight(s, v)
    ensures v in s.workers ==> (WorkerOk(n, v) <==> WorkerOk(s, v))
  {
  }

  lemma FifoSignal(s: State, t: nat, v: string)
    requires ThreadInv(s) && Fifo(s, v) && Enabled(s, Signal(t))
    ensures Fifo(Signalled(s, t), v)
  {
  }

  lemma FifoKept(s: State, e: Event, v: string)
    requires ThreadInv(s) && Fifo(s, v) && Enabled(s, e)
    ensures Fifo(Next(s, e), v)
  {
    hide Jobs, ThreadInv, Submitted, Taken, Finished, Signalled, Died;
    match e
    case Submit(u, job) => FifoSubmit(s, u, job, v);
    case Take(t) => FifoTake(s, t, v);
    case Finish(t, rec) => FifoFinish(s, t, rec, v);
    case Signal(t) => FifoSignal(s, t, v);
    case Die(t) => FifoDie(s, t, v);
    case Stop =>
  }

  // ----- no lost wakeup, and every job is signalled -----------------------------------

  lemma AwakeAfterTake(s: State, t: nat, v: string)
    requires t in s.threads && ThreadOk(s, t) && Awake(s, v) && (v in s.workers ==> WorkerOk(s, v))
    ensures Awake(Taken(s, t), v)
  {
    hide Ended, Popped, Awake, NothingToTake;
    if NothingToTake(s, s.threads[t].vault) {
      AwakeAfterEnd(s, t, v);
    } else {
      AwakeAfterPop(s, t, v);
    }
  }

  lemma AwakeAfterEnd(s: State, t: nat, v: string)
    requires t in s.threads && ThreadOk(s, t) && Awake(s, v) && (v in s.workers ==> WorkerOk(s, v))
    requires NothingToTake(s, s.threads[t].vault)
    ensures Awake(Ended(s, t), v)
  {
  }

  lemma AwakeAfterPop(s: State, t: nat, v: string)
    requires t in s.threads && ThreadOk(s, t) && Awake(s, v) && (v in s.workers ==> WorkerOk(s, v))
    requires !NothingToTake(s, s.threads[t].vault)
    ensures Awake(Popped(s, t), v)
  {
  }

  lemma AwakeKept(s: State, e: Event, v: string)
    requires ThreadInv(s) && Awake(s, v) && Enabled(s, e)
    ensures Awake(Next(s, e), v)
  {
    hide ThreadInv, Taken, Known, Fifo, ThreadOk;
    InvAt(s, e);
    if e.Take? {
      AwakeAfterTake(s, e.thread, v);
    } else if !e.Submit? && !e.Stop? {
      RegisteredThread(s, e.thread);
    }
  }

  lemma RegisteredThread(s: State, t: nat)
    requires t in s.threads && ThreadOk(s, t)
    ensures s.threads[t].vault in s.workers && s.workers[s.threads[t].vault] == t
  {
  }

  /** What makes a job outstanding, signalling or lost survives an event about others. */
  lemma StillPending(s: State, n: State, j: string)
    requires j in s.done && j in n.done && DoneOk(s, j) && n.done[j] == s.done[j]
    requires j in s.results ==> j in n.results
    requires forall u :: u in s.submitted && j in InFlight(s, u) + At(s.pending, u) ==>
      Outstanding(n, j) || Signalling(n, j) || Lost(n, j)
    requires forall t :: t in s.threads && s.threads[t].phase == Ready(j) ==>
      t in n.threads && n.threads[t] == s.threads[t]
    requires forall u :: u in s.left ==> u in n.left && s.left[u] <= n.left[u]
    ensures DoneOk(n, j)
  {
  }

  lemma DoneAfterSubmit(s: State, v: string, job: string, j: string)
    requires ThreadInv(s) && (j in s.done ==> DoneOk(s, j)) && j in Submitted(s, v, job).done
    ensures DoneOk(Submitted(s, v, job), j)
  {
    hide ThreadInv, Known, EnsureWorker, InFlight, ThreadOk, DoneOk;
    InvAt(s, Stop);
    var q := Queued(s, v, job);
    var n := Submitted(s, v, job);
    forall u
      ensures InFlight(n, u) == InFlight(s, u)
    {
      SameThreads(s, q, u);
      HiringKeepsInFlight(q, u, u);
      HiringKeepsInFlight(q, v, u);
    }
    HiringKeepsRest(q, v);
    if j == job {
      assert j in InFlight(n, v) + At(n.pending, v);
      SubmittedIsOutstanding(n, j);
    } else {
      forall u | u in s.submitted && j in InFlight(s, u) + At(s.pending, u)
        ensures Outstanding(n, j)
      {
        assert j in InFlight(n, u) + At(n.pending, u);
      }
      StillPending(s, n, j);
    }
  }

  lemma SubmittedIsOutstanding(n: State, j: string)
    requires j in n.done && !n.done[j] && Outstanding(n, j)
    ensures DoneOk(n, j)
  {
  }

  lemma HiringKeepsRest(s: State, v: string)
    requires s.nextThread !in s.threads
    ensures var n := EnsureWorker(s, v);
      && n.done == s.done && n.results == s.results && n.left == s.left
      && n.pending == s.pending && n.submitted == s.submitted
      && forall t :: t in s.threads ==> t in n.threads && n.threads[t] == s.threads[t]
  {
  }

  lemma DoneAfterTake(s: State, t: nat, j: string)
    requires ThreadInv(s) && Enabled(s, Take(t)) && j in s.done && DoneOk(s, j)
    ensures j in Taken(s, t).done && DoneOk(Taken(s, t), j)
  {
    hide ThreadInv, Known, InFlight, ThreadOk, DoneOk, Taken;
    InvAt(s, Take(t));
    var n := Taken(s, t);
    TakeKeepsRest(s, t);
    forall u | u in s.submitted && j in InFlight(s, u) + At(s.pending, u)
      ensures Outstanding(n, j)
    {
      if u == s.threads[t].vault {
        TopIsIdle(s, t);
        TakeOwn(s, t);
      } else {
        TakeOther(s, t, u);
      }
      assert j in InFlight(n, u) + At(n.pending, u);
    }
    StillPending(s, n, j);
  }

  lemma TakeKeepsRest(s: State, t: nat)
    requires t in s.threads && s.threads[t].phase.Top?
    ensures KeepsRest(s, Taken(s, t))
  {
    hide Ended, Popped, KeepsRest, NothingToTake;
    if NothingToTake(s, s.threads[t].vault) {
      EndKeepsRest(s, t);
    } else {
      PopKeepsRest(s, t);
    }
  }

  predicate KeepsRest(s: State, n: State) {
    && n.done == s.done && n.results == s.results && n.left == s.left && n.submitted == s.submitted
    && forall m :: m in s.threads && s.threads[m].phase.Ready? ==> m in n.threads && n.threads[m] == s.threads[m]
  }

  lemma EndKeepsRest(s: State, t: nat)
    requires t in s.threads && s.threads[t].phase.Top?
    ensures KeepsRest(s, Ended(s, t))
  {
  }

  lemma PopKeepsRest(s: State, t: nat)
    requires t in s.threads && s.threads[t].phase.Top? && !NothingToTake(s, s.threads[t].vault)
    ensures KeepsRest(s, Popped(s, t))
  {
  }

  lemma OthersInFlight(s: State, n: State, t: nat, u: string)
    requires t in s.threads && n.workers == s.workers && (u in s.workers ==> WorkerOk(s, u)) && u != s.threads[t].vault
    requires forall m :: m in s.threads && m != t ==> m in n.threads && n.threads[m] == s.threads[m]
    requires forall m :: m in n.threads ==> m in s.threads
    ensures InFlight(n, u) == InFlight(s, u)
  {
  }

  lemma DoneAfterFinish(s: State, t: nat, rec: JobRecord, j: string)
    requires ThreadInv(s) && Enabled(s, Finish(t, rec)) && j in s.done && DoneOk(s, j)
    ensures j in Finished(s, t, rec).done && DoneOk(Finished(s, t, rec), j)
  {
    hide ThreadInv, Known, InFlight, DoneOk;
    InvAt(s, Finish(t, rec));
    var n := Finished(s, t, rec);
    forall u | u in s.submitted && j in InFlight(s, u) + At(s.pending, u)
      ensures Outstanding(n, j) || Signalling(n, j)
    {
      if u != s.threads[t].vault {
        OthersInFlight(s, n, t, u);
        assert j in InFlight(n, u) + At(n.pending, u);
      } else if j in At(s.pending, u) {
        assert j in InFlight(n, u) + At(n.pending, u);
      } else {
        BusyIsInFlight(s, t);
        assert t in n.threads && n.threads[t].phase == Ready(j);
      }
    }
    StillPending(s, n, j);
  }

  lemma BusyIsInFlight(s: State, t: nat)
    requires t in s.threads && ThreadOk(s, t) && s.threads[t].phase.Busy?
    ensures InFlight(s, s.threads[t].vault) == [s.threads[t].phase.job]
  {
  }

  lemma DoneAfterDie(s: State, t: nat, j: string)
    requires ThreadInv(s) && Enabled(s, Die(t)) && j in s.done && DoneOk(s, j)
    ensures j in Died(s, t).done && DoneOk(Died(s, t), j)
  {
    hide ThreadInv, Known, InFlight, DoneOk;
    InvAt(s, Die(t));
    var n := Died(s, t);
    forall u | u in s.submitted && j in InFlight(s, u) + At(s.pending, u)
      ensures Outstanding(n, j) || Lost(n, j)
    {
      if u != s.threads[t].vault {
        OthersInFlight(s, n, t, u);
        assert j in InFlight(n, u) + At(n.pending, u);
      } else if j in At(s.pending, u) {
        assert j in InFlight(n, u) + At(n.pending, u);
      } else {
        BusyIsInFlight(s, t);
        assert Last(n.left[u]) == Exit(j, false);
      }
    }
    StillPending(s, n, j);
  }

  lemma DoneAfterSignal(s: State, t: nat, j: string)
    requires ThreadInv(s) && Enabled(s, Signal(t)) && j in s.done && DoneOk(s, j)
    ensures j in Signalled(s, t).done && DoneOk(Signalled(s, t), j)
  {
    hide ThreadInv, Known, DoneOk;
    InvAt(s, Signal(t));
    var n := Signalled(s, t);
    if j == s.threads[t].phase.job {
      SignalledIsDone(n, j);
    } else {
      forall u | u in s.submitted && j in InFlight(s, u) + At(s.pending, u)
        ensures Outstanding(n, j)
      {
        if u != s.threads[t].vault {
          OthersInFlight(s, n, t, u);
        }
        assert j in InFlight(n, u) + At(n.pending, u);
      }
      hide InFlight;
      StillPending(s, n, j);
    }
  }

  lemma SignalledIsDone(n: State, j: string)
    requires j in n.done && n.done[j] && j in n.results
    ensures DoneOk(n, j)
  {
  }

  lemma DoneKept(s: State, e: Event, j: string)
    requires ThreadInv(s) && Enabled(s, e) && (j in s.done ==> DoneOk(s, j)) && j in Next(s, e).done
    ensures DoneOk(Next(s, e), j)
  {
    hide ThreadInv, Known, Submitted, DoneOk, ThreadOk, WorkerOk;
    if e.Submit? {
      DoneAfterSubmit(s, e.vault, e.job, j);
    } else {
      DoneGrowsBySubmit(s, e, j);
      hide Next;
      NextIs(s, e);
      match e
      case Take(t) => DoneAfterTake(s, t, j);
      case Finish(t, rec) => DoneAfterFinish(s, t, rec, j);
      case Signal(t) => DoneAfterSignal(s, t, j);
      case Die(t) => DoneAfterDie(s, t, j);
      case Stop => StopKeepsDone(s, j);
    }
  }

  lemma NextIs(s: State, e: Event)
    requires Enabled(s, e)
    ensures e.Take? ==> Next(s, e) == Taken(s, e.thread)
    ensures e.Finish? ==> Next(s, e) == Finished(s, e.thread, e.rec)
    ensures e.Signal? ==> Next(s, e) == Signalled(s, e.thread)
    ensures e.Die? ==> Next(s, e) == Died(s, e.thread)
    ensures e.Stop? ==> Next(s, e) == s.(stopping := true)
  {
  }

  lemma DoneGrowsBySubmit(s: State, e: Event, j: string)
    requires ThreadInv(s) && Enabled(s, e) && !e.Submit? && j in Next(s, e).done
    ensures j in s.done
  {
  }

  lemma StopKeepsDone(s: State, j: string)
    requires j in s.done && DoneOk(s, j)
    ensures DoneOk(s.(stopping := true), j)
  {
  }

  /** Over all interleavings: per vault one thread at most, jobs leave in the order they were
    * submitted and none twice, no wakeup is lost except with a worker that died, and a job
    * that is not signalled is outstanding, about to be signalled, or lost with its worker. */
  lemma NextKeepsInv(s: State, e: Event)
    requires Inv(s) && Enabled(s, e)
    ensures Inv(Next(s, e))
  {
    hide Next, Enabled, ThreadInv, Fifo, Awake, DoneOk;
    ThreadsKept(s, e);
    forall v
      ensures Fifo(Next(s, e), v) && Awake(Next(s, e), v)
    {
      assert Fifo(s, v) && Awake(s, v);
      FifoKept(s, e, v);
      AwakeKept(s, e, v);
    }
    forall j | j in Next(s, e).done
      ensures DoneOk(Next(s, e), j)
    {
      assert j in s.done ==> DoneOk(s, j);
      DoneKept(s, e, j);
    }
  }

  /** The state after a sequence of events; one that is not possible is skipped. */
  function After(s: State, events: seq<Event>): State {
    if events == [] then s
    else
      var before := After(s, Init(events));
      if Enabled(before, Last(events)) then Next(before, Last(events)) else before
  }

  lemma {:induction false} AfterKeepsInv(s: State, events: seq<Event>)
    requires Inv(s)
    ensures Inv(After(s, events))
  {
    hide Inv, Enabled, Next;
    if events == [] {
    } else {
      AfterKeepsInv(s, Init(events));
      if Enabled(After(s, Init(events)), Last(events)) {
        NextKeepsInv(After(s, Init(events)), Last(events));
      }
    }
  }

  /** Every interleaving of submissions, workers, deaths and a shutdown is safe. */
  lemma QueueIsSafe(events: seq<Event>)
    ensures var s := After(Empty, events);
      && Inv(s)
      && (forall m, n :: m in s.threads && n in s.threads && m != n ==> s.threads[m].vault != s.threads[n].vault)
      && forall v :: Jobs(At(s.left, v)) <= At(s.submitted, v)
  {
    InitInv();
    AfterKeepsInv(Empty, events);
    hide After, Known, WorkerOk, Awake, DoneOk, Jobs;
    var s := After(Empty, events);
    forall m, n | m in s.threads && n in s.threads && m != n
      ensures s.threads[m].vault != s.threads[n].vault
    {
      ThreadsApart(s, m, n);
    }
    forall v
      ensures Jobs(At(s.left, v)) <= At(s.submitted, v)
    {
      assert Fifo(s, v);
    }
  }

  // ----- draining finishes every job --------------------------------------------------

  predicate IsWorkerEvent(e: Event) { e.Take? || e.Finish? || e.Signal? }

  function Weight(p: Phase): nat {
    match p
    case Top => 1
    case Ready(_) => 2
    case Busy(_) => 3
  }

  /** The worker steps a vault can still need at most. */
  function Measure(s: State, v: string): nat {
    4 * |At(s.pending, v)| + if HasWorker(s, v) then Weight(s.threads[s.workers[v]].phase) else 0
  }

  function Total(s: State, vaults: seq<string>): nat {
    if vaults == [] then 0 else Measure(s, Last(vaults)) + Total(s, Init(vaults))
  }

  lemma TakeDecreases(s: State, t: nat, v: string)
    requires Enabled(s, Take(t)) && ThreadOk(s, t) && (v in s.workers ==> WorkerOk(s, v))
    ensures var u := s.threads[t].vault; var n := Taken(s, t);
      if v == u then Measure(n, v) < Measure(s, v) else Measure(n, v) == Measure(s, v)
  {
    hide Ended, Popped;
    if NothingToTake(s, s.threads[t].vault) {
      EndDecreases(s, t, v);
    } else {
      PopDecreases(s, t, v);
    }
    hide Measure, NothingToTake;
  }

  lemma EndDecreases(s: State, t: nat, v: string)
    requires Enabled(s, Take(t)) && ThreadOk(s, t) && (v in s.workers ==> WorkerOk(s, v))
    ensures var u := s.threads[t].vault; var n := Ended(s, t);
      if v == u then Measure(n, v) < Measure(s, v) else Measure(n, v) == Measure(s, v)
  {
  }

  lemma PopDecreases(s: State, t: nat, v: string)
    requires Enabled(s, Take(t)) && ThreadOk(s, t) && (v in s.workers ==> WorkerOk(s, v))
    requires !NothingToTake(s, s.threads[t].vault)
    ensures var u := s.threads[t].vault; var n := Popped(s, t);
      if v == u then Measure(n, v) < Measure(s, v) else Measure(n, v) == Measure(s, v)
  {
  }

  lemma RunDecreases(s: State, e: Event, v: string)
    requires Enabled(s, e) && (e.Finish? || e.Signal?) && ThreadOk(s, e.thread) && (v in s.workers ==> WorkerOk(s, v))
    ensures var u := s.threads[e.thread].vault; var n := Next(s, e);
      if v == u then Measure(n, v) < Measure(s, v) else Measure(n, v) == Measure(s, v)
  {
  }

  lemma MeasureDecreases(s: State, e: Event, v: string)
    requires ThreadInv(s) && Enabled(s, e) && IsWorkerEvent(e)
    ensures var u := s.threads[e.thread].vault; var n := Next(s, e);
      if v == u then Measure(n, v) < Measure(s, v) else Measure(n, v) == Measure(s, v)
  {
    hide ThreadInv, Taken, Measure, Known, ThreadOk, WorkerOk;
    InvAt(s, e);
    if e.Take? {
      TakeDecreases(s, e.thread, v);
    } else {
      RunDecreases(s, e, v);
    }
  }

  lemma {:induction false} TotalDecreases(s: State, e: Event, vaults: seq<string>)
    requires ThreadInv(s) && Enabled(s, e) && IsWorkerEvent(e) && Distinct(vaults)
    ensures var u := s.threads[e.thread].vault;
      if u in vaults then Total(Next(s, e), vaults) < Total(s, vaults)
      else Total(Next(s, e), vaults) == Total(s, vaults)
  {
    hide ThreadInv, Measure, Next;
    if vaults == [] {
    } else {
      MeasureDecreases(s, e, Last(vaults));
      TotalDecreases(s, e, Init(vaults));
    }
  }

  /** Only worker events, each possible when it happens. */
  predicate Drains(s: State, events: seq<Event>) {
    events == []
    || (Drains(s, Init(events)) && IsWorkerEvent(Last(events)) && Enabled(After(s, Init(events)), Last(events)))
  }

  predicate ServesOnly(s: State, vaults: seq<string>) {
    forall t :: t in s.threads ==> s.threads[t].vault in vaults
  }

  lemma TakeServesOnly(s: State, t: nat, vaults: seq<string>)
    requires t in s.threads && ServesOnly(s, vaults)
    ensures ServesOnly(Taken(s, t), vaults) && Taken(s, t).stopping == s.stopping && Taken(s, t).orphaned == s.orphaned
  {
  }

  lemma WorkersServeOnly(s: State, e: Event, vaults: seq<string>)
    requires Enabled(s, e) && IsWorkerEvent(e) && ServesOnly(s, vaults)
    ensures ServesOnly(Next(s, e), vaults)
    ensures Next(s, e).stopping == s.stopping && Next(s, e).orphaned == s.orphaned
  {
    hide Taken;
    if e.Take? {
      TakeServesOnly(s, e.thread, vaults);
    }
  }

  /** With nothing more submitted, the workers come to rest within `Total` steps. */
  lemma {:induction false} DrainEnds(s: State, events: seq<Event>, vaults: seq<string>)
    requires Inv(s) && Drains(s, events) && Distinct(vaults) && ServesOnly(s, vaults)
    ensures |events| + Total(After(s, events), vaults) <= Total(s, vaults)
    ensures Inv(After(s, events)) && ServesOnly(After(s, events), vaults)
    ensures After(s, events).stopping == s.stopping && After(s, events).orphaned == s.orphaned
  {
    hide Inv, ServesOnly, Enabled, Next, Total;
    AfterKeepsInv(s, events);
    if events == [] {
    } else {
      var before := After(s, Init(events));
      DrainEnds(s, Init(events), vaults);
      InvThreads(before);
      EnabledThread(before, Last(events));
      ThreadServed(before, Last(events), vaults);
      TotalDecreases(before, Last(events), vaults);
      WorkersServeOnly(before, Last(events), vaults);
    }
  }

  lemma InvThreads(s: State)
    requires Inv(s)
    ensures ThreadInv(s)
  {
  }

  lemma EnabledThread(s: State, e: Event)
    requires Enabled(s, e) && IsWorkerEvent(e)
    ensures e.thread in s.threads
  {
  }

  lemma ThreadServed(s: State, e: Event, vaults: seq<string>)
    requires Enabled(s, e) && IsWorkerEvent(e) && ServesOnly(s, vaults)
    ensures s.threads[e.thread].vault in vaults
  {
  }

  /** No worker can move. */
  ghost predicate AtRest(s: State) { forall e :: IsWorkerEvent(e) ==> !Enabled(s, e) }

  lemma LiveWorkerCanMove(s: State, t: nat)
    requires t in s.threads
    ensures !AtRest(s)
  {
    assert Enabled(s, Take(t)) || Enabled(s, Signal(t)) || Enabled(s, Finish(t, NewJob("", "")));
  }

  /** A drained queue that is at rest, was not told to stop and lost no worker has handed out
    * every job, in order, and every submitted job is signalled with its result there. */
  lemma DrainedIsFinished(s: State)
    requires Inv(s) && AtRest(s) && !s.stopping && s.orphaned == {} && forall job :: !Lost(s, job)
    ensures s.threads == map[]
    ensures forall v :: At(s.pending, v) == [] && Jobs(At(s.left, v)) == At(s.submitted, v)
    ensures forall job :: job in s.done ==> s.done[job] && job in s.results
  {
    hide Lost, Jobs;
    forall t | t in s.threads
      ensures false
    {
      LiveWorkerCanMove(s, t);
    }
    assert s.threads == map[];
    forall v
      ensures At(s.pending, v) == [] && Jobs(At(s.left, v)) == At(s.submitted, v)
    {
      assert Awake(s, v) && Fifo(s, v);
    }
    forall job | job in s.done
      ensures s.done[job] && job in s.results
    {
      assert DoneOk(s, job);
    }
  }

  // ----- what a worker's death costs ------------------------------------------------

  /** After the events, a worker of the vault died and nobody has submitted to it since. */
  predicate DeadSince(s: State, events: seq<Event>, v: string) {
    if events == [] then false
    else
      var before, e := After(s, Init(events)), Last(events);
      if !Enabled(before, e) then DeadSince(s, Init(events), v)
      else if e.Die? && before.threads[e.thread].vault == v then true
      else if e.Submit? && e.vault == v then false
      else DeadSince(s, Init(events), v)
  }

  lemma OrphanedByDeath(s: State, e: Event, v: string)
    requires Awake(s, v) && Enabled(s, e)
    ensures v in Next(s, e).orphaned <==>
      (e.Die? && s.threads[e.thread].vault == v) || (v in s.orphaned && !(e.Submit? && e.vault == v))
  {
    hide Taken;
    if e.Take? {
      TakeKeepsOrphans(s, e.thread);
    }
  }

  lemma TakeKeepsOrphans(s: State, t: nat)
    requires t in s.threads
    ensures Taken(s, t).orphaned == s.orphaned
  {
  }

  lemma {:induction false} OrphanedMeansDead(events: seq<Event>, v: string)
    ensures v in After(Empty, events).orphaned <==> DeadSince(Empty, events, v)
  {
    hide Inv, Enabled, Next, Awake;
    if events == [] {
    } else {
      var before := After(Empty, Init(events));
      OrphanedMeansDead(Init(events), v);
      InitInv();
      AfterKeepsInv(Empty, Init(events));
      InvIsAwake(before, v);
      if Enabled(before, Last(events)) {
        OrphanedByDeath(before, Last(events), v);
      }
    }
  }

  lemma InvIsAwake(s: State, v: string)
    requires Inv(s)
    ensures Awake(s, v)
  {
  }

  /** Waiting jobs of a queue that was not stopped have a live worker if and only if no worker
    * of their vault died since the last submission to it. */
  lemma WaitingJobsHaveAWorker(events: seq<Event>, v: string)
    ensures var s := After(Empty, events);
      At(s.pending, v) != [] && !s.stopping ==> (HasWorker(s, v) <==> !DeadSince(Empty, events, v))
  {
    InitInv();
    AfterKeepsInv(Empty, events);
    hide After, Inv, DeadSince;
    InvIsAwake(After(Empty, events), v);
    OrphanedMeansDead(events, v);
  }

  predicate NoSubmit(events: seq<Event>, v: string) {
    forall i :: 0 <= i < |events| ==> !(events[i].Submit? && events[i].vault == v)
  }

  /** Without a worker and without a submission nothing happens on a vault. */
  lemma StillStranded(s: State, e: Event, v: string)
    requires ThreadInv(s) && Enabled(s, e) && !HasWorker(s, v) && !(e.Submit? && e.vault == v)
    ensures var n := Next(s, e); !HasWorker(n, v) && At(n.pending, v) == At(s.pending, v)
  {
    hide ThreadInv, Known, Taken, ThreadOk;
    InvAt(s, e);
    if !e.Submit? && !e.Stop? {
      RegisteredThread(s, e.thread);
      if e.Take? {
        TakeLeavesOthers(s, e.thread, v);
      }
    }
  }

  lemma TakeLeavesOthers(s: State, t: nat, v: string)
    requires t in s.threads && s.threads[t].vault != v && (v in s.workers ==> WorkerOk(s, v)) && !HasWorker(s, v)
    ensures !HasWorker(Taken(s, t), v) && At(Taken(s, t).pending, v) == At(s.pending, v)
  {
    hide NothingToTake;
  }

  /** A worker that dies strands the jobs behind it, whatever else happens, until somebody
    * submits to that vault again. */
  lemma {:induction false} DeathStrandsTheQueue(s: State, t: nat, events: seq<Event>)
    requires Inv(s) && Enabled(s, Die(t)) && NoSubmit(events, s.threads[t].vault)
    ensures var v := s.threads[t].vault; var n := After(Next(s, Die(t)), events);
      Inv(n) && !HasWorker(n, v) && At(n.pending, v) == At(s.pending, v)
  {
    var v := s.threads[t].vault;
    NextKeepsInv(s, Die(t));
    AfterKeepsInv(Next(s, Die(t)), events);
    if events == [] {
      assert ThreadOk(s, t);
    } else {
      hide Inv, Next, Enabled, HasWorker;
      DeathStrandsTheQueue(s, t, Init(events));
      var before := After(Next(s, Die(t)), Init(events));
      InvThreads(before);
      if Enabled(before, Last(events)) {
        StillStranded(before, Last(events), v);
      }
    }
  }

  /** ... which happens. */
  lemma AJobIsStranded(v: string, first: string, second: string)
    ensures var s := After(Empty, [Submit(v, first), Take(0), Submit(v, second), Die(0)]);
      AtRest(s) && !s.stopping && At(s.pending, v) == [second]
  {
    hide AtRest, After;
    AfterNone(Empty);
    AfterSnoc(Empty, [], Submit(v, first));
    AfterSnoc(Empty, [Submit(v, first)], Take(0));
    AfterSnoc(Empty, [Submit(v, first), Take(0)], Submit(v, second));
    AfterSnoc(Empty, [Submit(v, first), Take(0), Submit(v, second)], Die(0));
    assert [] + [Submit(v, first)] == [Submit(v, first)];
    assert [Submit(v, first)] + [Take(0)] == [Submit(v, first), Take(0)];
    assert [Submit(v, first), Take(0)] + [Submit(v, second)] == [Submit(v, first), Take(0), Submit(v, second)];
    assert [Submit(v, first), Take(0), Submit(v, second)] + [Die(0)]
        == [Submit(v, first), Take(0), Submit(v, second), Die(0)];
    FirstIsTaken(v, first);
    var taken := Popped(Submitted(Empty, v, first), 0);
    assert Submitted(taken, v, second) == Queued(taken, v, second);
    NobodyIsAtRest(Died(Queued(taken, v, second), 0));
  }

  lemma AfterNone(s: State)
    ensures After(s, []) == s
  {
  }

  lemma AfterSnoc(s: State, events: seq<Event>, e: Event)
    ensures After(s, events + [e]) ==
      if Enabled(After(s, events), e) then Next(After(s, events), e) else After(s, events)
  {
  }

  lemma FirstIsTaken(v: string, first: string)
    ensures var s := Submitted(Empty, v, first);
      && s.threads == map[0 := Thread(v, Top)] && Taken(s, 0) == Popped(s, 0)
      && Popped(s, 0).threads == map[0 := Thread(v, Busy(first))] && HasWorker(Popped(s, 0), v)
      && At(Popped(s, 0).pending, v) == [] && !Popped(s, 0).stopping
  {
  }

  lemma NobodyIsAtRest(s: State)
    requires s.threads == map[]
    ensures AtRest(s)
  {
  }

  // ----- the queue object -------------------------------------------------------------

  datatype Waited = Done(rec: JobRecord) | TimedOut | NoSuchJob

  /** What a runner does with a job: it returns a record or raises. */
  datatype Ran = Returned(rec: JobRecord) | Raised(message: string)

  /** The queue; each method is one critical section, or a step with the lock released. */
  class JobQueue {
    var pending: map<string, seq<string>>
    var running: map<string, string>
    var workers: map<string, nat>
    var done: map<string, bool>
    var results: map<string, JobRecord>
    var vaultOf: map<string, string>
    var stopping: bool
    /** The live threads of the process. */
    var threads: map<nat, Thread>
    var nextThread: nat
    ghost var submitted: map<string, seq<string>>
    ghost var left: map<string, seq<Exit>>
    ghost var orphaned: set<string>

    ghost function View(): State
      reads this
    {
      State(pending, running, workers, done, results, vaultOf, stopping, threads, nextThread, submitted, left, orphaned)
    }

    constructor ()
      ensures View() == Empty
    {
      pending, running, workers, done, results, vaultOf := map[], map[], map[], map[], map[], map[];
      stopping, threads, nextThread := false, map[], 0;
      submitted, left, orphaned := map[], map[], {};
    }

    /** A new worker, unless the registered one is alive. */
    method StartWorker(vault: string)
      modifies this
      ensures View() == EnsureWorker(old(View()), vault)
    {
      if vault !in workers || workers[vault] !in threads {
        threads := threads[nextThread := Thread(vault, Top)];
        workers := workers[vault := nextThread];
        nextThread := nextThread + 1;
        orphaned := orphaned - {vault};
      }
    }

    method SubmitJob(vault: string, job: string) returns (r: Result<string, Exn>)
      modifies this
      ensures old(stopping) ==> r.Err? && View() == old(View())
      ensures !old(stopping) ==> r == Ok(job) && View() == Next(old(View()), Submit(vault, job))
    {
      if stopping {
        return Err(Exn(Foreign, "queue is shutting down"));
      }
      pending := pending[vault := At(pending, vault) + [job]];
      done, vaultOf := done[job := false], vaultOf[job := vault];
      submitted := submitted[vault := At(submitted, vault) + [job]];
      StartWorker(vault);
      r := Ok(job);
    }

    /** The first critical section of the worker loop: the next job, or the end. */
    method NextJob(t: nat) returns (job: Option<string>)
      requires t in threads && threads[t].phase.Top?
      modifies this
      ensures View() == Next(old(View()), Take(t))
      ensures job.Some? <==> t in threads
      ensures job.Some? ==> threads[t].phase == Busy(job.value)
    {
      var vault := threads[t].vault;
      if stopping || At(pending, vault) == [] {
        workers, threads := workers - {vault}, threads - {t};
        return None;
      }
      var first := pending[vault][0];
      pending, running := pending[vault := pending[vault][1..]], running[vault := first];
      threads := threads[t := Thread(vault, Busy(first))];
      job := Some(first);
    }

    /** A raising runner's job is failed in the store; this raises in turn when the record is
      * missing, unreadable or terminal. */
    method ForceFail(store: JobStore.JobStore, job: string, message: string) returns (r: Result<JobRecord, Exn>)
      requires store.Valid()
      modifies store
      ensures store.Valid()
      ensures r.Ok? ==> job in old(store.records) && !Settled(old(store.records)[job].state)
      ensures r.Ok? ==> r.value == FailedWith(old(store.records)[job], "worker", message).(state := Failed)
      ensures r.Ok? ==> store.records == old(store.records)[job := r.value]
      ensures r.Err? ==> store.records == old(store.records)
      ensures r.Ok? ==> store.failures == old(store.failures)
      ensures r.Err? ==>
        || store.failures == old(store.failures) + [r.error]
        || (store.failures == old(store.failures) && job in store.records && Settled(store.records[job].state))
    {
      var existing :- store.Load(job);
      var rec := if existing.Some? then existing.value else NewJob(job, if job in vaultOf then vaultOf[job] else "");
      var target := rec;
      if rec.state != Running {
        target :- TransitionedTo(rec, Running);
      }
      var failed := TransitionedTo(FailedWith(target, "worker", message), Failed);
      r := store.Update(failed.value);
    }

    /** The runner's outcome made into a record; if even that raises the thread dies, which it
      * does only if the store fails or the job is settled already. */
    method Settle(t: nat, store: JobStore.JobStore, ran: Ran) returns (rec: Option<JobRecord>)
      requires t in threads && threads[t].phase.Busy? && store.Valid()
      modifies this, store
      ensures store.Valid()
      ensures ran.Returned? ==> rec == Some(ran.rec) && View() == old(View()) && store.records == old(store.records)
      ensures rec.Some? ==> View() == old(View()) && store.failures == old(store.failures)
      ensures old(store.failures) <= store.failures
      ensures rec.None? ==> var job := old(threads[t]).phase.job;
        |store.failures| == |old(store.failures)| + 1 || (job in store.records && Settled(store.records[job].state))
      ensures rec.None? ==> View() == Next(old(View()), Die(t)) && store.records == old(store.records)
      ensures ran.Raised? && rec.Some? ==> rec.value.state == Failed
      ensures ran.Raised? && rec.Some? ==> store.records == old(store.records)[threads[t].phase.job := rec.value]
    {
      var vault, job := threads[t].vault, threads[t].phase.job;
      match ran {
        case Returned(r) => rec := Some(r);
        case Raised(message) =>
          var forced := ForceFail(store, job, message);
          if forced.Ok? {
            return Some(forced.value);
          }
          threads, orphaned := threads - {t}, orphaned + {vault};
          left := left[vault := At(left, vault) + [Exit(job, false)]];
          rec := None;
      }
    }

    /** The second critical section. */
    method FinishJob(t: nat, rec: JobRecord)
      requires t in threads && threads[t].phase.Busy?
      modifies this
      ensures View() == Next(old(View()), Finish(t, rec))
    {
      var vault, job := threads[t].vault, threads[t].phase.job;
      running, results := running - {vault}, results[job := rec];
      threads := threads[t := Thread(vault, Ready(job))];
      left := left[vault := At(left, vault) + [Exit(job, true)]];
    }

    method SignalDone(t: nat)
      requires t in threads && threads[t].phase.Ready?
      modifies this
      ensures View() == Next(old(View()), Signal(t))
    {
      done := done[threads[t].phase.job := true];
      threads := threads[t := Thread(threads[t].vault, Top)];
    }

    /** A look at a job's event: its result is there once the event is set. */
    method Wait(job: string) returns (w: Waited)
      requires Inv(View())
      ensures w.NoSuchJob? <==> job !in done
      ensures job in done && done[job] ==> job in results && w == Done(results[job])
      ensures job in done && !done[job] ==> w == TimedOut
    {
      if job !in done {
        return NoSuchJob;
      }
      if !done[job] {
        return TimedOut;
      }
      assert DoneOk(View(), job);
      w := Done(results[job]);
    }

    /** Without `drain` the workers end at their next look for a job. */
    method Shutdown(drain: bool)
      modifies this
      ensures View() == if drain then old(View()) else Next(old(View()), Stop)
    {
      if !drain {
        stopping := true;
      }
    }
  }
}
