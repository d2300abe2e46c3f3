/** The ingest transaction as it runs: each stage is proved to take a step of the ingest
  * machine, so whole runs are runs of the machine. */
module Pipeline {
  import opened Prelude
  import opened Job
  import opened Git
  import opened Frontmatter
  import opened WriteTools
  import opened Ingest
  import opened Budgets
  import opened Agent
  import opened IngestTheorems
  import opened IngestProgress
  import opened IngestLogs
  import opened Drafting
  import Notes
  import JobStore
  import Organizing

  /** The per-vault index of ingested sources, in the state directory. */
  class SourceIndex {
    var entries: map<string, Index>
    /** What its operations raised. */
    ghost var failures: seq<Exn>

    constructor ()
      ensures entries == map[] && failures == []
    {
      entries, failures := map[], [];
    }

    function Of(vault: string): Index
      reads `entries
    {
      if vault in entries then entries[vault] else map[]
    }

    /** An unreadable index raises. */
    method Get(vault: string, sha: string) returns (r: Result<Option<SourceRecord>, Exn>)
      modifies `failures
      ensures failures == old(failures) + Raising(r)
      ensures r.Ok? ==> r.value == if sha in Of(vault) then Some(Of(vault)[sha]) else None
    {
      if * {
        var exn: Exn := *;
        failures := failures + [exn];
        return Err(exn);
      }
      r := Ok(if sha in Of(vault) then Some(Of(vault)[sha]) else None);
    }

    /** One locked read-modify-write; it happens or it does not. */
    method Put(vault: string, rec: SourceRecord) returns (r: Result<(), Exn>)
      modifies this
      ensures failures == old(failures) + Raising(r)
      ensures r.Ok? ==> entries == old(entries)[vault := old(Of(vault))[rec.sha := rec]]
      ensures r.Err? ==> entries == old(entries)
    {
      if * {
        var exn: Exn := *;
        failures := failures + [exn];
        return Err(exn);
      }
      entries := entries[vault := Of(vault)[rec.sha := rec]];
      r := Ok(());
    }
  }

  /** Where control goes after a stage. */
  datatype Flow = Next | Roll(after: After) | Fail(stage: string, message: string) | End(ending: Ending)

  /** The `except` clauses. */
  function Caught(current: string, exn: Exn): Flow {
    if !exn.Groundtruth() then End(Escaped(exn))
    else if exn.kind == Transient then Roll(ThenRaise(exn))
    else Roll(ThenFail(current, exn.message))
  }

  /** The program counter a flow stands for. */
  predicate At(flow: Flow, pc: Pc) {
    match flow
    case Next => true
    case Roll(after) => pc == Reset(after)
    case Fail(stage, message) => pc == FailUpdate(stage, message)
    case End(ending) => pc == Done(ending)
  }

  // ----- one step of the machine, stage by stage ------------------------------------

  /** Stages whose exceptions all go to the handlers. */
  predicate Plain(pc: Pc) {
    pc.CleanTree? || pc.Dedup? || pc.DedupFinish? || pc.Drafting? || pc.WriteText? || pc.WriteManifest?
    || pc.WriteNote? || pc.Stage? || pc.CommitNotes? || pc.ReadHead? || pc.SetManifest? || pc.Restage?
    || pc.AmendHead? || pc.ReadAmended? || pc.PutIndex? || pc.Finish?
  }

  /** A raised exception is handled as the `except` clauses say, with the repository as the
    * failing command left it. */
  lemma RaisedIsCaught(q: Request, l: Logs, r: Run, exn: Exn, repo: Repo)
    requires ValidRepo(r.repo) && Plain(r.l.pc)
    requires if Mutates(r.l.pc) then SameHistory(r.repo, repo) else r.repo == repo
    ensures var s := Step(q, r, Raise(exn, repo.staged, repo.work));
      && At(Caught(r.l.current, exn), s.l.pc) && s.l.job == r.l.job && ValidRepo(s.repo)
      && s.repo == repo && s.records == r.records && s.index == r.index
    ensures Caught(r.l.current, exn).End? || Caught(r.l.current, exn).Roll?
    ensures var n := Noted(l, r, Raise(exn, repo.staged, repo.work));
      && (Gits(r.l.pc) ==> n == l.(git := l.git + [exn]))
      && (Stores(r.l.pc) ==> n == l.(store := l.store + [exn]))
      && (r.l.pc.Dedup? || r.l.pc.PutIndex? ==> n == l.(index := l.index + [exn]))
  {
    hide Step, Throw, Disturbed, IdsAscend, At, Caught, Noted;
    RaiseIsLogged(l, r, exn, repo.staged, repo.work);
    StepRaise(q, r, exn, repo.staged, repo.work);
    DisturbedAs(r, repo);
    PlainIsHandled(r.(repo := repo), exn);
    CaughtGoes(r.l.current, exn);
  }

  /** A stage that does not raise advances, and logs nothing. */
  lemma Goes(q: Request, l: Logs, r: Run)
    requires ValidRepo(r.repo) && !r.l.pc.PushHead?
    ensures Step(q, r, Go) == Advance(q, r) && Noted(l, r, Go) == l
  {
    hide Step, Noted;
    StepGo(q, r);
    GoIsNotLogged(l, r);
  }

  lemma CaughtGoes(current: string, exn: Exn)
    ensures Caught(current, exn).End? || Caught(current, exn).Roll?
  {
  }

  lemma DisturbedAs(r: Run, repo: Repo)
    requires ValidRepo(r.repo)
    requires if Mutates(r.l.pc) then SameHistory(r.repo, repo) else r.repo == repo
    ensures Disturbed(r, repo.staged, repo.work) == r.(repo := repo) && ValidRepo(repo)
  {
  }

  lemma PlainIsHandled(r: Run, exn: Exn)
    requires Plain(r.l.pc)
    ensures Throw(r, exn) == Goto(r, Throw(r, exn).l.pc) && At(Caught(r.l.current, exn), Throw(r, exn).l.pc)
  {
  }

  // ----- from staged writes to drafts -----------------------------------------------

  /** The run has drafted `batch` and is to write its note `i`, after the archive if any. */
  predicate Written(q: Request, l: Local, i: nat, batch: seq<Draft>, downgrades: map<string, seq<string>>) {
    && l.pc == (if i == 0 && q.archive then WriteText else WriteNote(i)) && batch != []
    && l.current == "write-validation" && l.batch == batch && l.downgrades == downgrades
  }

  /** The stage after a commit's id was read. */
  function AfterRead(q: Request, pc: Pc): Pc {
    if pc.ReadHead? && q.archive then SetManifest else PutIndex
  }

  function AfterNote(i: nat, batch: seq<Draft>): Pc {
    if i + 1 < |batch| then WriteNote(i + 1) else Stage
  }

  /** Where a failed drafting goes: a stage's failure is rolled back under the stage's name. */
  function FlowOf(current: string, f: Organizing.Failure): Flow {
    match f
    case StageFailure(stage, message) => Roll(ThenFail(stage, message))
    case Threw(exn) => Caught(current, exn)
  }

  function EventOf(repo: Repo, f: Organizing.Failure): Event {
    match f
    case StageFailure(stage, message) => StageFailed(stage, message)
    case Threw(exn) => Raise(exn, repo.staged, repo.work)
  }

  lemma FailureRolls(q: Request, r: Run, f: Organizing.Failure, downgrades: map<string, seq<string>>)
    requires ValidRepo(r.repo) && r.l.pc.Drafting?
    ensures var s := Step(q, r, EventOf(r.repo, f));
      && At(FlowOf(r.l.current, f), s.l.pc) && FlowOf(r.l.current, f) != Next && s.l.job == r.l.job
      && s.repo == r.repo && s.records == r.records && s.index == r.index
    ensures Reports(EventOf(r.repo, f), Err(f), downgrades)
  {
    match f
    case StageFailure(stage, message) =>
    case Threw(exn) =>
      hide Step, Noted, Caught, At;
      RaisedIsCaught(q, Logs([], [], [], [], [], []), r, exn, r.repo);
  }

  lemma StepFetched(q: Request, l: Logs, r: Run, trees: seq<Tree>)
    requires ValidRepo(r.repo) && r.l.pc.PreSync?
    ensures Step(q, r, Fetched(trees)) == StepPreSync(r, trees)
    ensures Noted(l, r, Fetched(trees)) == l.(pulls := l.pulls + [trees])
  {
  }

  /** Writing a note is one step: what is there is merged in, and replaced. */
  lemma StepWrites(q: Request, l: Logs, r: Run, note: Note)
    requires ValidRepo(r.repo) && r.l.pc.WriteNote? && r.l.pc.i < |r.l.batch| && r.l.batch[r.l.pc.i].note == note
    ensures var file := NoteFile(note.path); var n := Notes.Persist(q.y, TextAt(r.repo.work, file), note, q.day);
      Step(q, r, Go) ==
      (if n.Err? then Handle(r, n.error)
       else if !Valid(n.value.frontmatter) then Handle(r, Exn(Foreign, "invalid frontmatter"))
       else OnWork(r, r.repo.work[file := Text(RenderNote(q.y, n.value))], AfterNote(r.l.pc.i, r.l.batch)))
    ensures Noted(l, r, Go) == l
  {
    Goes(q, l, r);
    hide Step, Noted, Notes.Persist, RenderNote, Valid;
  }

  lemma StepUnstarted(q: Request, l: Logs, r: Run, exn: Exn)
    requires ValidRepo(r.repo) && (r.l.pc.Load? || r.l.pc.MarkRunning?)
    ensures Step(q, r, Raise(exn, map[], map[])) == Goto(r, Done(Unstarted(exn)))
    ensures Noted(l, r, Raise(exn, map[], map[])) == l.(store := l.store + [exn])
  {
  }

  lemma WrittenSays(q: Request, l: Local, batch: seq<Draft>, downgrades: map<string, seq<string>>)
    requires Written(q, l, 0, batch, downgrades)
    ensures l.pc == (if q.archive then WriteText else WriteNote(0)) && batch != []
    ensures l.current == "write-validation" && l.batch == batch && l.downgrades == downgrades
  {
  }

  lemma NextAfterRead(q: Request, pc: Pc)
    ensures AfterRead(q, pc) == if pc.ReadHead? && q.archive then SetManifest else PutIndex
  {
  }

  lemma StepDrafted(q: Request, r: Run, batch: seq<Draft>, downgrades: map<string, seq<string>>)
    requires ValidRepo(r.repo) && r.l.pc.Drafting?
    requires VaultReadable(q.y, r.repo.work) && Gate(q, batch, ExistingPaths(r.repo.work))
    ensures var s := Step(q, r, Drafted(batch, downgrades));
      && s.repo == r.repo && s.records == r.records && s.index == r.index && s.l.job == r.l.job
      && Written(q, s.l, 0, batch, downgrades)
  {
  }

  class IngestPipeline {
    const jobs: JobStore.JobStore
    const index: SourceIndex
    const repo: GitRepo
    /** Why the schema or the vocabulary could not be loaded, when they could not. */
    ghost var unloaded: seq<Exn>
    /** What the draftings came to. */
    ghost var drafts: seq<Upshot>

    constructor (jobs: JobStore.JobStore, index: SourceIndex, repo: GitRepo)
      ensures this.jobs == jobs && this.index == index && this.repo == repo && unloaded == [] && drafts == []
    {
      this.jobs, this.index, this.repo, unloaded, drafts := jobs, index, repo, [], [];
    }

    /** What the components have logged so far. */
    ghost function Seen(): Logs
      reads this, jobs, index, repo
    {
      Logs(repo.failures, jobs.failures, index.failures, repo.fetched, repo.pushed, drafts)
    }

    /** There was no drafting since, or one that came out as it did for a reason. */
    ghost predicate Accounts(q: Request, s: Organizing.Settings, before: seq<Upshot>, h: seq<Heard>,
                             unloaded: seq<Exn>, surveyed: Budget?, organized: Budget?)
      reads `drafts, surveyed, organized
    {
      || drafts == before
      || (|drafts| == |before| + 1 && before <= drafts
          && Justified(q, s, Last(drafts), h, unloaded, Spent(s, h, surveyed), Spent(s, h, organized)))
    }

    /** The objects are in the state `m` of the machine. */
    ghost predicate Matches(q: Request, m: Run)
      reads jobs, index, repo
    {
      && jobs.Valid() && ValidRepo(repo.repo)
      && m.repo == repo.repo && m.records == jobs.records && m.index == index.Of(q.vault)
    }

    /** Loads the record, or creates it. */
    method LoadJob(q: Request, ghost m: Run) returns (flow: Flow, job: JobRecord, ghost e: Event)
      requires Matches(q, m) && m.l.pc.Load?
      modifies jobs
      ensures Seen() == Noted(old(Seen()), m, e)
      ensures Matches(q, Step(q, m, e)) && At(flow, Step(q, m, e).l.pc)
      ensures flow == Next || flow.End?
      ensures flow == Next ==> Step(q, m, e).l.pc.MarkRunning? && Step(q, m, e).l.job == job
    {
      hide Step, Noted, Throw, IdsAscend, JobStore.Apply;
      job := NewJob(q.job, q.vault);
      e := Go;
      var prior := jobs.Load(q.job);
      if prior.Err? {
        e, flow := Raise(prior.error, map[], map[]), End(Unstarted(prior.error));
        StepUnstarted(q, old(Seen()), m, prior.error);
        return;
      }
      Goes(q, old(Seen()), m);
      if prior.value.Some? {
        job := prior.value.value;
      } else {
        var created := jobs.Create(job);
        if created.Err? {
          e, flow := Raise(created.error, map[], map[]), End(Unstarted(created.error));
          StepUnstarted(q, old(Seen()), m, created.error);
          return;
        }
      }
      flow := Next;
    }

    method Begin(q: Request, loaded: JobRecord, ghost m: Run) returns (flow: Flow, job: JobRecord, ghost e: Event)
      requires Matches(q, m) && m.l.pc.MarkRunning? && m.l.job == loaded
      modifies jobs
      ensures Seen() == Noted(old(Seen()), m, e)
      ensures Matches(q, Step(q, m, e)) && At(flow, Step(q, m, e).l.pc)
      ensures flow == Next || flow.End?
      ensures flow == Next ==>
        Step(q, m, e).l.pc.CleanTree? && Step(q, m, e).l.job == job && Step(q, m, e).l.current == "clean-tree"
    {
      hide Step, Noted, Throw, IdsAscend, JobStore.Apply;
      job := loaded;
      e := Go;
      Goes(q, old(Seen()), m);
      var running := TransitionedTo(loaded.(sourceSha := Some(q.sha)), Running);
      if running.Err? {
        flow := End(Unstarted(running.error));
        return;
      }
      var updated := jobs.Update(running.value);
      if updated.Err? {
        StepUnstarted(q, old(Seen()), m, updated.error);
        e, flow := Raise(updated.error, map[], map[]), End(Unstarted(updated.error));
        return;
      }
      job, flow := updated.value, Next;
    }

    method RequireClean(q: Request, ghost m: Run) returns (flow: Flow, ghost e: Event)
      requires Matches(q, m) && m.l.pc.CleanTree? && m.l.current == "clean-tree"
      modifies repo`failures
      ensures Seen() == Noted(old(Seen()), m, e)
      ensures Matches(q, Step(q, m, e)) && At(flow, Step(q, m, e).l.pc)
      ensures flow == Next ==> IsClean(repo.repo) && Step(q, m, e).l.pc.Dedup? && Step(q, m, e).l.current == m.l.current
      ensures flow.Fail? ==> !IsClean(repo.repo)
      ensures Step(q, m, e).l.job == m.l.job
    {
      hide Step, Noted, Throw, Caught, IdsAscend;
      e := Go;
      var clean := repo.Clean();
      if clean.Err? {
        e, flow := Raise(clean.error, repo.repo.staged, repo.repo.work), Caught("clean-tree", clean.error);
        RaisedIsCaught(q, old(Seen()), m, clean.error, repo.repo);
        return;
      }
      Goes(q, old(Seen()), m);
      flow := if clean.value then Next else Fail("clean-tree", "working tree is dirty");
    }

    /** The dedup lookup. */
    method LookUp(q: Request, ghost m: Run) returns (flow: Flow, prior: Option<SourceRecord>, ghost e: Event)
      requires Matches(q, m) && m.l.pc.Dedup? && m.l.current == "clean-tree"
      modifies index`failures
      ensures Seen() == Noted(old(Seen()), m, e)
      ensures Matches(q, Step(q, m, e)) && At(flow, Step(q, m, e).l.pc)
      ensures Step(q, m, e).l.job == m.l.job
      ensures flow == Next ==> prior == if q.sha in index.Of(q.vault) then Some(index.Of(q.vault)[q.sha]) else None
      ensures flow == Next && prior.Some? ==>
        Step(q, m, e).l.pc.DedupFinish? && q.sha in Step(q, m, e).index && prior.value == Step(q, m, e).index[q.sha]
        && Step(q, m, e).l.current == m.l.current
      ensures flow == Next && prior.None? ==>
        if q.autoPush then Step(q, m, e).l.pc.PreSync? && Step(q, m, e).l.current == "pre-sync"
        else Step(q, m, e).l.pc.Drafting? && Step(q, m, e).l.current == m.l.current
    {
      hide Step, Noted;
      e, prior := Go, None;
      var found := index.Get(q.vault, q.sha);
      if found.Err? {
        e, flow := Raise(found.error, repo.repo.staged, repo.repo.work), Caught("clean-tree", found.error);
        RaisedIsCaught(q, old(Seen()), m, found.error, repo.repo);
        return;
      }
      Goes(q, old(Seen()), m);
      flow, prior := Next, found.value;
    }

    /** The short-circuit of a text already ingested. */
    method FinishDuplicate(q: Request, job: JobRecord, prior: SourceRecord, ghost m: Run)
      returns (flow: Flow, ghost e: Event)
      requires Matches(q, m) && m.l.pc.DedupFinish? && m.l.job == job && m.l.current == "clean-tree"
      requires q.sha in m.index && prior == m.index[q.sha]
      modifies jobs
      ensures Seen() == Noted(old(Seen()), m, e)
      ensures Matches(q, Step(q, m, e)) && At(flow, Step(q, m, e).l.pc) && flow != Next
      ensures !flow.End? ==> Step(q, m, e).l.job == m.l.job
    {
      hide Step, Noted, Throw, IdsAscend, JobStore.Apply, Created, Updated;
      e := Go;
      Goes(q, old(Seen()), m);
      var rec := job.(dedupOf := Some(prior.job), commitSha := Some(prior.commit),
                      sourceSha := Some(q.sha), notesUpdated := prior.touched);
      var moved := TransitionedTo(rec, Succeeded);
      if moved.Err? {
        flow := Caught("clean-tree", moved.error);
        return;
      }
      var updated := jobs.Update(moved.value);
      if updated.Err? {
        e, flow := Raise(updated.error, repo.repo.staged, repo.repo.work), Caught("clean-tree", updated.error);
        RaisedIsCaught(q, old(Seen()), m, updated.error, repo.repo);
        return;
      }
      flow := End(Returned(updated.value));
    }

    method Pull(q: Request, ghost m: Run) returns (flow: Flow, ghost e: Event)
      requires Matches(q, m) && m.l.pc.PreSync? && m.l.current == "pre-sync"
      modifies repo
      ensures Seen() == Noted(old(Seen()), m, e)
      ensures Matches(q, Step(q, m, e)) && At(flow, Step(q, m, e).l.pc)
      ensures Step(q, m, e).l.job == m.l.job && Step(q, m, e).l.current == m.l.current
      ensures flow == Next ==> Step(q, m, e).l.pc.Drafting?
    {
      hide Step, Noted;
      var pulled;
      ghost var trees;
      pulled, trees := repo.PullFfOnly();
      if pulled.Err? {
        e := Raise(pulled.error, repo.repo.staged, repo.repo.work);
        RaiseIsLogged(old(Seen()), m, pulled.error, repo.repo.staged, repo.repo.work);
        StepRaise(q, m, pulled.error, repo.repo.staged, repo.repo.work);
        flow := if pulled.error.kind == GitConflict then Fail("pre-sync", pulled.error.message)
                else Caught("pre-sync", pulled.error);
        return;
      }
      e, flow := Fetched(trees), Next;
      StepFetched(q, old(Seen()), m, trees);
    }

    // ----- drafting -----------------------------------------------------------------

    /** Loads the schema and the vocabulary that the prompts show. */
    method LoadContext() returns (r: Result<(), Exn>)
      modifies `unloaded
      ensures unloaded == old(unloaded) + Raising(r)
    {
      if * {
        var exn: Exn := *;
        unloaded := unloaded + [exn];
        return Err(exn);
      }
      r := Ok(());
    }

    /** The paths of all notes; one note that does not parse fails the listing. */
    method ListNotes(y: TitleCodec) returns (r: Result<set<string>, Exn>)
      ensures r.Ok? ==> VaultReadable(y, repo.repo.work) && r.value == ExistingPaths(repo.repo.work)
      ensures r.Err? ==> Unparsed(y, repo.repo.work, r.error)
    {
      var files := repo.repo.work;
      var todo := files.Keys;
      var paths: set<string> := {};
      while todo != {}
        invariant todo <= files.Keys
        invariant forall f :: f in files.Keys - todo && f.NoteFile? && !Notes.IsSchema(f.path) ==>
                                ParseNote(y, TextAt(files, f).value).Ok?
        invariant paths == set f | f in files.Keys - todo && f.NoteFile? && !Notes.IsSchema(f.path) :: f.path
        decreases |todo|
      {
        var f :| f in todo;
        if f.NoteFile? && !Notes.IsSchema(f.path) {
          var _ :- ParseNote(y, TextAt(files, f).value);
          paths := paths + {f.path};
        }
        todo := todo - {f};
      }
      r := Ok(paths);
    }

    /** The context of a drafting: what the prompts show, then the notes there are. */
    method ReadVault(y: TitleCodec) returns (r: Result<set<string>, Exn>)
      modifies `unloaded
      ensures r.Ok? ==>
        VaultReadable(y, repo.repo.work) && r.value == ExistingPaths(repo.repo.work) && unloaded == old(unloaded)
      ensures r.Err? ==>
        || unloaded == old(unloaded) + [r.error]
        || (unloaded == old(unloaded) && Unparsed(y, repo.repo.work, r.error))
    {
      var _ :- LoadContext();
      r := ListNotes(y);
    }

    /** Lists the vault, then asks the model for a batch; only a gated one comes back. */
    method DraftNotes(q: Request, client: Client, s: Organizing.Settings, current: string, ghost m: Run)
      returns (flow: Flow, batch: seq<Draft>, downgrades: map<string, seq<string>>, ghost e: Event,
               ghost surveyed: Budget?, ghost organized: Budget?)
      requires Matches(q, m) && m.l.pc.Drafting? && m.l.current == current && SettingsFor(q, s)
      modifies client, `unloaded, `drafts
      ensures Seen() == Noted(old(Seen()), m, e)
      ensures Matches(q, Step(q, m, e)) && At(flow, Step(q, m, e).l.pc) && Step(q, m, e).l.job == m.l.job
      ensures flow == Next ==> Written(q, Step(q, m, e).l, 0, batch, downgrades)
      ensures old(client.heard) <= client.heard && old(unloaded) <= unloaded
      ensures (surveyed != null ==> fresh(surveyed)) && (organized != null ==> fresh(organized))
      ensures |drafts| == |old(drafts)| + 1
      ensures Accounts(q, s, old(drafts), client.heard[|old(client.heard)|..], unloaded[|old(unloaded)|..],
                       surveyed, organized)
    {
      hide Step, Noted, Justified, Accounts, Spent, Unparsed, Gate, VaultReadable, ExistingPaths, Throw, IdsAscend,
        FlowOf, EventOf, Written;
      batch, downgrades, surveyed, organized := [], map[], null, null;
      ghost var h0, u0, work := client.heard, unloaded, repo.repo.work;
      var listed := ReadVault(q.y);
      ghost var u := unloaded[|u0|..];
      if listed.Err? {
        e, flow := Raise(listed.error, repo.repo.staged, work), Caught(current, listed.error);
        RaisedIsCaught(q, old(Seen()), m, listed.error, repo.repo);
        ghost var h := client.heard[|h0|..];
        UnreadIsJustified(q, s, Upshot(work, e), h, u, Spent(s, h, null), Spent(s, h, null));
        LogUpshot(q, s, m, e, h, u, null, null);
        return;
      }
      assert u == [];
      var drafted;
      drafted, downgrades, surveyed, organized := DraftAgainst(q, client, s, listed.value, work);
      if drafted.Err? {
        flow, e := FlowOf(current, drafted.error), EventOf(repo.repo, drafted.error);
        FailureRolls(q, m, drafted.error, downgrades);
      } else {
        batch := drafted.value;
        e, flow := Drafted(batch, downgrades), Next;
        StepDrafted(q, m, batch, downgrades);
      }
      LogUpshot(q, s, m, e, client.heard[|h0|..], u, surveyed, organized);
    }

    /** Logs what a drafting came to. */
    ghost method LogUpshot(q: Request, s: Organizing.Settings, m: Run, e: Event, h: seq<Heard>, unloaded: seq<Exn>,
                      surveyed: Budget?, organized: Budget?)
      requires m.l.pc.Drafting? && !e.Go? && !e.Fetched?
      requires Justified(q, s, Upshot(m.repo.work, e), h, unloaded, Spent(s, h, surveyed), Spent(s, h, organized))
      modifies `drafts
      ensures Seen() == Noted(old(Seen()), m, e) && |drafts| == |old(drafts)| + 1
      ensures Accounts(q, s, old(drafts), h, unloaded, surveyed, organized)
    {
      hide Justified, Spent, Noted;
      DraftingIsLogged(Seen(), m, e);
      drafts := drafts + [Upshot(m.repo.work, e)];
    }

    // ----- writing ------------------------------------------------------------------

    /** Archives the text under its hash; an existing file is kept. */
    method WriteArchiveText(q: Request, ghost m: Run) returns (flow: Flow, ghost e: Event)
      requires Matches(q, m) && m.l.pc.WriteText? && m.l.current == "write-validation"
      modifies repo
      ensures Seen() == Noted(old(Seen()), m, e)
      ensures Matches(q, Step(q, m, e)) && At(flow, Step(q, m, e).l.pc)
      ensures Step(q, m, e).l.job == m.l.job
      ensures flow == Next ==> Step(q, m, e).l == m.l.(pc := WriteManifest)
    {
      hide Step, Noted;
      e, flow := Go, Next;
      Goes(q, old(Seen()), m);
      if ArchiveText(q.sha) !in repo.repo.work {
        var written := repo.WriteFile(ArchiveText(q.sha), Text(q.text));
        if written.Err? {
          e, flow := Raise(written.error, repo.repo.staged, repo.repo.work), Caught("write-validation", written.error);
          RaisedIsCaught(q, old(Seen()), m, written.error, repo.repo);
        }
      }
    }

    method WriteArchiveManifest(q: Request, batch: seq<Draft>, ghost m: Run) returns (flow: Flow, ghost e: Event)
      requires Matches(q, m) && m.l.pc.WriteManifest? && m.l.current == "write-validation" && m.l.batch == batch
      modifies repo
      ensures Seen() == Noted(old(Seen()), m, e)
      ensures Matches(q, Step(q, m, e)) && At(flow, Step(q, m, e).l.pc)
      ensures Step(q, m, e).l.job == m.l.job
      ensures flow == Next ==> Step(q, m, e).l == m.l.(pc := WriteNote(0))
    {
      hide Step, Noted, Throw, IdsAscend, Touched;
      e, flow := Go, Next;
      Goes(q, old(Seen()), m);
      if ArchiveManifest(q.sha) !in repo.repo.work {
        var written := repo.WriteFile(ArchiveManifest(q.sha), Manifest(q.job, Touched(batch), None));
        if written.Err? {
          e, flow := Raise(written.error, repo.repo.staged, repo.repo.work), Caught("write-validation", written.error);
          RaisedIsCaught(q, old(Seen()), m, written.error, repo.repo);
        }
      }
    }

    /** Writes one note over what is there. */
    method WriteOneNote(q: Request, note: Note, ghost m: Run) returns (flow: Flow, ghost e: Event)
      requires Matches(q, m) && m.l.pc.WriteNote? && m.l.current == "write-validation"
      requires m.l.pc.i < |m.l.batch| && m.l.batch[m.l.pc.i].note == note
      modifies repo
      ensures Seen() == Noted(old(Seen()), m, e)
      ensures Matches(q, Step(q, m, e)) && At(flow, Step(q, m, e).l.pc)
      ensures Step(q, m, e).l.job == m.l.job
      ensures flow == Next ==>
        Step(q, m, e).l == m.l.(pc := AfterNote(m.l.pc.i, m.l.batch))
    {
      hide Step, Noted, Advance, Throw, Notes.Persist, RenderNote, Valid, TextAt, IdsAscend;
      e := Go;
      StepWrites(q, old(Seen()), m, note);
      var file := NoteFile(note.path);
      var persisted := Notes.Persist(q.y, TextAt(repo.repo.work, file), note, q.day);
      if persisted.Err? {
        flow := Caught("write-validation", persisted.error);
        return;
      }
      if !Valid(persisted.value.frontmatter) {
        flow := Caught("write-validation", Exn(Foreign, "invalid frontmatter"));
        return;
      }
      var written := repo.WriteFile(file, Text(RenderNote(q.y, persisted.value)));
      if written.Err? {
        e, flow := Raise(written.error, repo.repo.staged, repo.repo.work), Caught("write-validation", written.error);
        RaisedIsCaught(q, old(Seen()), m, written.error, repo.repo);
        return;
      }
      flow := Next;
    }

    // ----- committing ---------------------------------------------------------------

    /** `git add`, before the commit and again before the amend. */
    method StageAll(q: Request, ghost m: Run) returns (flow: Flow, ghost e: Event)
      requires Matches(q, m) && (m.l.pc.Stage? || m.l.pc.Restage?) && m.l.current == "write-validation"
      modifies repo
      ensures Seen() == Noted(old(Seen()), m, e)
      ensures Matches(q, Step(q, m, e)) && At(flow, Step(q, m, e).l.pc)
      ensures Step(q, m, e).l.job == m.l.job
      ensures flow == Next ==> Step(q, m, e).l == m.l.(pc := if m.l.pc.Stage? then CommitNotes else AmendHead)
    {
      hide Step, Noted, Throw, Caught, IdsAscend;
      e, flow := Go, Next;
      Goes(q, old(Seen()), m);
      var added := repo.Add();
      if added.Err? {
        e, flow := Raise(added.error, repo.repo.staged, repo.repo.work), Caught("write-validation", added.error);
        RaisedIsCaught(q, old(Seen()), m, added.error, repo.repo);
      }
    }

    method CommitBatch(q: Request, ghost m: Run) returns (flow: Flow, ghost e: Event)
      requires Matches(q, m) && m.l.pc.CommitNotes? && m.l.current == "write-validation"
      modifies repo
      ensures Seen() == Noted(old(Seen()), m, e)
      ensures Matches(q, Step(q, m, e)) && At(flow, Step(q, m, e).l.pc)
      ensures Step(q, m, e).l.job == m.l.job
      ensures flow == Next ==> Step(q, m, e).l == m.l.(pc := ReadHead)
    {
      hide Step, Noted, Throw, Caught;
      e, flow := Go, Next;
      Goes(q, old(Seen()), m);
      var committed := repo.Commit(Some(Origin(q.job, q.sha)));
      if committed.Err? {
        e, flow := Raise(committed.error, repo.repo.staged, repo.repo.work),
          Caught("write-validation", committed.error);
        RaisedIsCaught(q, old(Seen()), m, committed.error, repo.repo);
      }
    }

    /** The id `commit` and `amend` return. */
    method ReadId(q: Request, ghost m: Run) returns (flow: Flow, id: nat, ghost e: Event)
      requires Matches(q, m) && (m.l.pc.ReadHead? || m.l.pc.ReadAmended?) && m.l.current == "write-validation"
      modifies repo`failures
      ensures Seen() == Noted(old(Seen()), m, e)
      ensures Matches(q, Step(q, m, e)) && At(flow, Step(q, m, e).l.pc)
      ensures Step(q, m, e).l.job == m.l.job
      ensures flow == Next ==> Step(q, m, e).l == m.l.(pc := AfterRead(q, m.l.pc), commit := id)
    {
      hide Step, Noted, Throw, Caught, IdsAscend;
      e, flow, id := Go, Next, 0;
      Goes(q, old(Seen()), m);
      var head := repo.HeadSha();
      if head.Err? {
        e, flow := Raise(head.error, repo.repo.staged, repo.repo.work), Caught("write-validation", head.error);
        RaisedIsCaught(q, old(Seen()), m, head.error, repo.repo);
      } else {
        id := head.value;
      }
    }

    /** Records the commit's id in the manifest, which must be there. */
    method SetCommitSha(q: Request, id: nat, ghost m: Run) returns (flow: Flow, ghost e: Event)
      requires Matches(q, m) && m.l.pc.SetManifest? && m.l.current == "write-validation" && m.l.commit == id
      modifies repo
      ensures Seen() == Noted(old(Seen()), m, e)
      ensures Matches(q, Step(q, m, e)) && At(flow, Step(q, m, e).l.pc)
      ensures Step(q, m, e).l.job == m.l.job
      ensures flow == Next ==> Step(q, m, e).l == m.l.(pc := Restage)
    {
      hide Step, Noted, Throw, IdsAscend;
      e, flow := Go, Next;
      Goes(q, old(Seen()), m);
      var file := ArchiveManifest(q.sha);
      if file !in repo.repo.work || !repo.repo.work[file].Manifest? {
        flow := Caught("write-validation", Exn(Foreign, "no manifest"));
      } else {
        var written := repo.WriteFile(file, repo.repo.work[file].(commit := Some(id)));
        if written.Err? {
          e, flow := Raise(written.error, repo.repo.staged, repo.repo.work), Caught("write-validation", written.error);
          RaisedIsCaught(q, old(Seen()), m, written.error, repo.repo);
        }
      }
    }

    method Amend(q: Request, ghost m: Run) returns (flow: Flow, ghost e: Event)
      requires Matches(q, m) && m.l.pc.AmendHead? && m.l.current == "write-validation"
      modifies repo
      ensures Seen() == Noted(old(Seen()), m, e)
      ensures Matches(q, Step(q, m, e)) && At(flow, Step(q, m, e).l.pc)
      ensures Step(q, m, e).l.job == m.l.job
      ensures flow == Next ==> Step(q, m, e).l == m.l.(pc := ReadAmended)
    {
      hide Step, Noted, Throw, Caught;
      e, flow := Go, Next;
      Goes(q, old(Seen()), m);
      var amended := repo.Amend();
      if amended.Err? {
        e, flow := Raise(amended.error, repo.repo.staged, repo.repo.work), Caught("write-validation", amended.error);
        RaisedIsCaught(q, old(Seen()), m, amended.error, repo.repo);
      }
    }

    // ----- publishing ---------------------------------------------------------------

    /** Indexes the commit under the text's hash, and touches no other vault's index. */
    method IndexCommit(q: Request, batch: seq<Draft>, id: nat, ghost m: Run) returns (flow: Flow, ghost e: Event)
      requires Matches(q, m) && m.l.pc.PutIndex? && m.l.current == "write-validation"
      requires m.l.batch == batch && m.l.commit == id
      modifies index
      ensures Seen() == Noted(old(Seen()), m, e)
      ensures Matches(q, Step(q, m, e)) && At(flow, Step(q, m, e).l.pc)
      ensures forall v :: v != q.vault ==> index.Of(v) == old(index.Of(v))
      ensures Step(q, m, e).l.job == m.l.job
      ensures flow == Next ==> Step(q, m, e).l == m.l.(pc := if q.autoPush then PushHead else Finish(None))
    {
      hide Step, Noted, Throw, IdsAscend, Touched;
      e, flow := Go, Next;
      Goes(q, old(Seen()), m);
      var put := index.Put(q.vault, SourceRecord(q.sha, q.job, id, Touched(batch), q.today, q.sourceLabel));
      if put.Err? {
        e, flow := Raise(put.error, repo.repo.staged, repo.repo.work), Caught("write-validation", put.error);
        RaisedIsCaught(q, old(Seen()), m, put.error, repo.repo);
      }
    }

    /** A rejected push is reported, not raised. */
    method Push(q: Request, ghost m: Run) returns (flow: Flow, pushError: Option<string>, ghost e: Event)
      requires Matches(q, m) && m.l.pc.PushHead? && m.l.current == "write-validation"
      modifies repo`failures, repo`pushed
      ensures Seen() == Noted(old(Seen()), m, e)
      ensures Matches(q, Step(q, m, e)) && At(flow, Step(q, m, e).l.pc)
      ensures Step(q, m, e).l.job == m.l.job
      ensures flow == Next ==> Step(q, m, e).l == m.l.(pc := Finish(pushError))
    {
      hide Step, IdsAscend;
      e, flow, pushError := Go, Next, None;
      StepGo(q, m);
      var pushed := repo.Push();
      if pushed.Err? {
        e := Raise(pushed.error, repo.repo.staged, repo.repo.work);
        StepRaise(q, m, pushed.error, repo.repo.staged, repo.repo.work);
        if pushed.error.kind == GitPush {
          pushError := Some(pushed.error.message);
        } else {
          flow := Caught("write-validation", pushed.error);
        }
      }
    }

    method Succeed(q: Request, job: JobRecord, batch: seq<Draft>, downgrades: map<string, seq<string>>, id: nat,
                  pushError: Option<string>, ghost m: Run) returns (flow: Flow, ghost e: Event)
      requires Matches(q, m) && m.l.pc == Finish(pushError) && m.l.job == job && m.l.current == "write-validation"
      requires m.l.batch == batch && m.l.downgrades == downgrades && m.l.commit == id
      modifies jobs
      ensures Seen() == Noted(old(Seen()), m, e)
      ensures Matches(q, Step(q, m, e)) && At(flow, Step(q, m, e).l.pc) && flow != Next
      ensures !flow.End? ==> Step(q, m, e).l.job == m.l.job
    {
      hide Step, Noted, Throw, IdsAscend, JobStore.Apply, Created, Updated;
      e := Go;
      Goes(q, old(Seen()), m);
      var rec := job.(commitSha := Some(id), notesCreated := Created(batch), notesUpdated := Updated(batch),
                      linkDowngrades := downgrades, error := pushError);
      var moved := TransitionedTo(rec, Succeeded);
      if moved.Err? {
        flow := Caught("write-validation", moved.error);
        return;
      }
      var updated := jobs.Update(moved.value);
      if updated.Err? {
        e, flow := Raise(updated.error, repo.repo.staged, repo.repo.work), Caught("write-validation", updated.error);
        RaisedIsCaught(q, old(Seen()), m, updated.error, repo.repo);
        return;
      }
      flow := End(Returned(updated.value));
    }

    // ----- the whole run ------------------------------------------------------------

    method StartJob(q: Request, ghost m: Run) returns (flow: Flow, job: JobRecord, ghost events: seq<Event>)
      requires Matches(q, m) && m.l.pc.Load?
      modifies jobs
      ensures Seen() == NotedAll(q, old(Seen()), m, events)
      ensures Matches(q, Exec(q, m, events)) && At(flow, Exec(q, m, events).l.pc) && (flow == Next || flow.End?)
      ensures flow == Next ==> var l := Exec(q, m, events).l;
        l.pc.CleanTree? && l.job == job && l.current == "clean-tree"
    {
      hide *;
      ghost var e;
      flow, job, e := LoadJob(q, m);
      events := [e];
      OneEvent(q, old(Seen()), m, e);
      if flow == Next {
        flow, job, e := Begin(q, job, Step(q, m, e));
        OneMoreEvent(q, old(Seen()), m, events, e);
        events := events + [e];
      }
    }

    /** The clean-tree check, the dedup short-circuit and the pull. */
    method Prepare(q: Request, job: JobRecord, ghost m: Run)
      returns (flow: Flow, current: string, ghost events: seq<Event>)
      requires Matches(q, m) && m.l.pc.CleanTree? && m.l.job == job && m.l.current == "clean-tree"
      modifies jobs, repo, index`failures
      ensures Seen() == NotedAll(q, old(Seen()), m, events)
      ensures Matches(q, Exec(q, m, events)) && At(flow, Exec(q, m, events).l.pc)
      ensures !flow.End? ==> Exec(q, m, events).l.job == job
      ensures flow == Next ==> Exec(q, m, events).l.pc.Drafting? && Exec(q, m, events).l.current == current
    {
      hide *;
      ghost var e;
      current := "clean-tree";
      flow, e := RequireClean(q, m);
      events := [e];
      OneEvent(q, old(Seen()), m, e);
      if flow != Next {
        return;
      }
      ghost var n := Step(q, m, e);
      var prior;
      flow, prior, e := LookUp(q, n);
      OneMoreEvent(q, old(Seen()), m, events, e);
      events := events + [e];
      if flow != Next {
        return;
      }
      n := Step(q, n, e);
      if prior.Some? {
        flow, e := FinishDuplicate(q, job, prior.value, n);
        OneMoreEvent(q, old(Seen()), m, events, e);
        events := events + [e];
      } else if q.autoPush {
        current := "pre-sync";
        flow, e := Pull(q, n);
        OneMoreEvent(q, old(Seen()), m, events, e);
        events := events + [e];
      }
    }

    method Archive(q: Request, batch: seq<Draft>, ghost m: Run) returns (flow: Flow, ghost events: seq<Event>)
      requires Matches(q, m) && m.l.pc.WriteText? && m.l.current == "write-validation" && m.l.batch == batch
      modifies repo
      ensures Seen() == NotedAll(q, old(Seen()), m, events)
      ensures Matches(q, Exec(q, m, events)) && At(flow, Exec(q, m, events).l.pc)
      ensures Exec(q, m, events).l.job == m.l.job
      ensures flow == Next ==> Exec(q, m, events).l == m.l.(pc := WriteNote(0))
    {
      hide *;
      ghost var e;
      flow, e := WriteArchiveText(q, m);
      events := [e];
      OneEvent(q, old(Seen()), m, e);
      if flow == Next {
        flow, e := WriteArchiveManifest(q, batch, Step(q, m, e));
        OneMoreEvent(q, old(Seen()), m, events, e);
        events := events + [e];
      }
    }

    /** The notes, in the batch's order. */
    method WriteNotes(q: Request, batch: seq<Draft>, ghost m: Run) returns (flow: Flow, ghost events: seq<Event>)
      requires Matches(q, m) && m.l.pc == WriteNote(0) && m.l.current == "write-validation" && m.l.batch == batch
      requires batch != []
      modifies repo
      ensures Seen() == NotedAll(q, old(Seen()), m, events)
      ensures Matches(q, Exec(q, m, events)) && At(flow, Exec(q, m, events).l.pc)
      ensures Exec(q, m, events).l.job == m.l.job
      ensures flow == Next ==> Exec(q, m, events).l == m.l.(pc := Stage)
    {
      hide Matches, Step, Init;
      events := [];
      ghost var n := m;
      for i := 0 to |batch|
        invariant n == Exec(q, m, events) && Matches(q, n) && Seen() == NotedAll(q, old(Seen()), m, events)
        invariant n.l == m.l.(pc := if i < |batch| then WriteNote(i) else Stage)
      {
        hide *;
        ghost var e;
        flow, e := WriteOneNote(q, batch[i].note, n);
        OneMoreEvent(q, old(Seen()), m, events, e);
        events := events + [e];
        if flow != Next {
          return;
        }
        n := Step(q, n, e);
        assert AfterNote(i, batch) == if i + 1 < |batch| then WriteNote(i + 1) else Stage;
      }
      flow := Next;
    }

    /** The one commit, and the amend that adds its id to the manifest. */
    method CommitDraft(q: Request, ghost m: Run) returns (flow: Flow, id: nat, ghost events: seq<Event>)
      requires Matches(q, m) && m.l.pc.Stage? && m.l.current == "write-validation"
      modifies repo
      ensures Seen() == NotedAll(q, old(Seen()), m, events)
      ensures Matches(q, Exec(q, m, events)) && At(flow, Exec(q, m, events).l.pc)
      ensures Exec(q, m, events).l.job == m.l.job
      ensures flow == Next ==> Exec(q, m, events).l == m.l.(pc := PutIndex, commit := id)
    {
      hide *;
      ghost var e;
      id := 0;
      flow, e := StageAll(q, m);
      events := [e];
      OneEvent(q, old(Seen()), m, e);
      if flow != Next {
        return;
      }
      ghost var n := Step(q, m, e);
      flow, e := CommitBatch(q, n);
      OneMoreEvent(q, old(Seen()), m, events, e);
      events := events + [e];
      if flow != Next {
        return;
      }
      n := Step(q, n, e);
      flow, id, e := ReadId(q, n);
      OneMoreEvent(q, old(Seen()), m, events, e);
      events := events + [e];
      NextAfterRead(q, n.l.pc);
      n := Step(q, n, e);
      if flow == Next && q.archive {
        ghost var more;
        flow, id, more := AmendDraft(q, id, n);
        MoreEvents(q, old(Seen()), m, events, more);
        events := events + more;
      }
    }

    method AmendDraft(q: Request, first: nat, ghost m: Run) returns (flow: Flow, id: nat, ghost events: seq<Event>)
      requires Matches(q, m) && m.l.pc.SetManifest? && m.l.current == "write-validation" && m.l.commit == first
      modifies repo
      ensures Seen() == NotedAll(q, old(Seen()), m, events)
      ensures Matches(q, Exec(q, m, events)) && At(flow, Exec(q, m, events).l.pc)
      ensures Exec(q, m, events).l.job == m.l.job
      ensures flow == Next ==> Exec(q, m, events).l == m.l.(pc := PutIndex, commit := id)
    {
      hide *;
      ghost var e;
      id := first;
      flow, e := SetCommitSha(q, first, m);
      events := [e];
      OneEvent(q, old(Seen()), m, e);
      if flow != Next {
        return;
      }
      ghost var n := Step(q, m, e);
      flow, e := StageAll(q, n);
      OneMoreEvent(q, old(Seen()), m, events, e);
      events := events + [e];
      if flow != Next {
        return;
      }
      n := Step(q, n, e);
      flow, e := Amend(q, n);
      OneMoreEvent(q, old(Seen()), m, events, e);
      events := events + [e];
      if flow != Next {
        return;
      }
      n := Step(q, n, e);
      flow, id, e := ReadId(q, n);
      OneMoreEvent(q, old(Seen()), m, events, e);
      events := events + [e];
      NextAfterRead(q, n.l.pc);
    }

    /** Indexes the commit, pushes, and records the success. */
    method Publish(q: Request, job: JobRecord, batch: seq<Draft>, downgrades: map<string, seq<string>>, id: nat,
                   ghost m: Run)
      returns (flow: Flow, ghost events: seq<Event>)
      requires Matches(q, m) && m.l.pc.PutIndex? && m.l.current == "write-validation" && m.l.job == job
      requires m.l.batch == batch && m.l.downgrades == downgrades && m.l.commit == id
      modifies jobs, index, repo`failures, repo`pushed
      ensures Seen() == NotedAll(q, old(Seen()), m, events)
      ensures Matches(q, Exec(q, m, events)) && At(flow, Exec(q, m, events).l.pc) && flow != Next
      ensures forall v :: v != q.vault ==> index.Of(v) == old(index.Of(v))
      ensures !flow.End? ==> Exec(q, m, events).l.job == job
    {
      hide *;
      ghost var e;
      flow, e := IndexCommit(q, batch, id, m);
      events := [e];
      OneEvent(q, old(Seen()), m, e);
      if flow != Next {
        return;
      }
      ghost var n := Step(q, m, e);
      var pushError: Option<string> := None;
      if q.autoPush {
        flow, pushError, e := Push(q, n);
        OneMoreEvent(q, old(Seen()), m, events, e);
        events := events + [e];
        if flow != Next {
          return;
        }
        n := Step(q, n, e);
      }
      flow, e := Succeed(q, job, batch, downgrades, id, pushError, n);
      OneMoreEvent(q, old(Seen()), m, events, e);
      events := events + [e];
    }

    /** The body of the `try` statement after the preparations. */
    method DraftAndCommit(q: Request, client: Client, s: Organizing.Settings, job: JobRecord, current: string,
                          ghost m: Run)
      returns (flow: Flow, ghost events: seq<Event>, ghost surveyed: Budget?, ghost organized: Budget?)
      requires Matches(q, m) && m.l.pc.Drafting? && m.l.job == job && m.l.current == current && SettingsFor(q, s)
      modifies client, jobs, index, repo, `unloaded, `drafts
      ensures old(client.heard) <= client.heard && old(unloaded) <= unloaded
      ensures (surveyed != null ==> fresh(surveyed)) && (organized != null ==> fresh(organized))
      ensures Accounts(q, s, old(drafts), client.heard[|old(client.heard)|..], unloaded[|old(unloaded)|..],
                       surveyed, organized)
      ensures Seen() == NotedAll(q, old(Seen()), m, events)
      ensures Matches(q, Exec(q, m, events)) && At(flow, Exec(q, m, events).l.pc) && flow != Next
      ensures forall v :: v != q.vault ==> index.Of(v) == old(index.Of(v))
      ensures !flow.End? ==> Exec(q, m, events).l.job == job
    {
      hide *;
      ghost var e, more;
      var batch, downgrades;
      flow, batch, downgrades, e, surveyed, organized := DraftNotes(q, client, s, current, m);
      events := [e];
      OneEvent(q, old(Seen()), m, e);
      if flow != Next {
        return;
      }
      ghost var n := Step(q, m, e);
      WrittenSays(q, n.l, batch, downgrades);
      if q.archive {
        flow, more := Archive(q, batch, n);
        MoreEvents(q, old(Seen()), m, events, more);
        events, n := events + more, Exec(q, n, more);
        if flow != Next {
          return;
        }
      }
      flow, more := WriteNotes(q, batch, n);
      MoreEvents(q, old(Seen()), m, events, more);
      events, n := events + more, Exec(q, n, more);
      if flow != Next {
        return;
      }
      var id;
      flow, id, more := CommitDraft(q, n);
      MoreEvents(q, old(Seen()), m, events, more);
      events, n := events + more, Exec(q, n, more);
      if flow != Next {
        return;
      }
      flow, more := Publish(q, job, batch, downgrades, id, n);
      MoreEvents(q, old(Seen()), m, events, more);
      events := events + more;
    }

    /** The handlers: a rollback, then the failure record or the transient exception again. */
    method Unwind(q: Request, job: JobRecord, after: After, ghost m: Run) returns (flow: Flow, ghost events: seq<Event>)
      requires Matches(q, m) && m.l.pc == Reset(after) && m.l.job == job
      modifies repo
      ensures Seen() == NotedAll(q, old(Seen()), m, events)
      ensures Matches(q, Exec(q, m, events)) && At(flow, Exec(q, m, events).l.pc) && (flow.End? || flow.Fail?)
      ensures flow.Fail? ==> Exec(q, m, events).l.job == job
    {
      hide Step, Advance, Exec, Noted, NotedAll, IsClean, IdsAscend;
      var rolled := repo.Rollback();
      if rolled.Err? {
        ghost var e := Raise(rolled.error, repo.repo.staged, repo.repo.work);
        events, flow := [e], End(RollbackRaised(rolled.error));
        OneEvent(q, old(Seen()), m, e);
        RaiseIsLogged(old(Seen()), m, rolled.error, repo.repo.staged, repo.repo.work);
        StepRaise(q, m, rolled.error, repo.repo.staged, repo.repo.work);
      } else {
        events := [Go, Go];
        flow := if after.ThenFail? then Fail(after.stage, after.message) else End(Reraised(after.exn));
        RollbackInTwo(q, m, after);
        RollbackIsQuiet(q, old(Seen()), m, after);
      }
    }

    method RecordFailure(q: Request, job: JobRecord, stage: string, message: string, ghost m: Run)
      returns (ending: Ending, ghost e: Event)
      requires Matches(q, m) && m.l.pc == FailUpdate(stage, message) && m.l.job == job
      modifies jobs
      ensures Seen() == Noted(old(Seen()), m, e)
      ensures Matches(q, Step(q, m, e)) && Step(q, m, e).l.pc == Done(ending)
    {
      hide Step, Noted, IdsAscend, JobStore.Apply;
      e := Go;
      Goes(q, old(Seen()), m);
      var moved := TransitionedTo(FailedWith(job, stage, message), Failed);
      if moved.Err? {
        ending := RecordRaised(moved.error);
        return;
      }
      var updated := jobs.Update(moved.value);
      if updated.Err? {
        e, ending := Raise(updated.error, repo.repo.staged, repo.repo.work), RecordRaised(updated.error);
        RaiseIsLogged(old(Seen()), m, updated.error, repo.repo.staged, repo.repo.work);
        StepRaise(q, m, updated.error, repo.repo.staged, repo.repo.work);
        return;
      }
      ending := Returned(updated.value);
    }

    /** The `try` statement's body. */
    method Attempt(q: Request, client: Client, s: Organizing.Settings, ghost m: Run)
      returns (flow: Flow, job: JobRecord, ghost events: seq<Event>, ghost surveyed: Budget?, ghost organized: Budget?)
      requires Matches(q, m) && m.l.pc.Load? && SettingsFor(q, s)
      modifies client, jobs, index, repo, `unloaded, `drafts
      ensures old(client.heard) <= client.heard && old(unloaded) <= unloaded
      ensures (surveyed != null ==> fresh(surveyed)) && (organized != null ==> fresh(organized))
      ensures Accounts(q, s, old(drafts), client.heard[|old(client.heard)|..], unloaded[|old(unloaded)|..],
                       surveyed, organized)
      ensures Seen() == NotedAll(q, old(Seen()), m, events)
      ensures Matches(q, Exec(q, m, events)) && At(flow, Exec(q, m, events).l.pc) && flow != Next
      ensures forall v :: v != q.vault ==> index.Of(v) == old(index.Of(v))
      ensures !flow.End? ==> Exec(q, m, events).l.job == job
    {
      hide *;
      ghost var more;
      surveyed, organized := null, null;
      NothingDrafted(q, s, drafts, client.heard[|client.heard|..], unloaded[|unloaded|..]);
      flow, job, events := StartJob(q, m);
      if flow != Next {
        return;
      }
      ghost var n := Exec(q, m, events);
      var current;
      flow, current, more := Prepare(q, job, n);
      MoreEvents(q, old(Seen()), m, events, more);
      events, n := events + more, Exec(q, n, more);
      if flow != Next {
        return;
      }
      flow, more, surveyed, organized := DraftAndCommit(q, client, s, job, current, n);
      MoreEvents(q, old(Seen()), m, events, more);
      events := events + more;
    }

    /** The `except` clauses. */
    method HandleFailure(q: Request, job: JobRecord, start: Flow, ghost m: Run)
      returns (ending: Ending, ghost events: seq<Event>)
      requires Matches(q, m) && At(start, m.l.pc) && start != Next && (!start.End? ==> m.l.job == job)
      modifies jobs, repo
      ensures Seen() == NotedAll(q, old(Seen()), m, events)
      ensures Matches(q, Exec(q, m, events)) && Exec(q, m, events).l.pc == Done(ending)
    {
      var flow := start;
      ghost var n := m;
      events := [];
      if flow.Roll? {
        flow, events := Unwind(q, job, flow.after, m);
        n := Exec(q, m, events);
      } else {
        assert Exec(q, m, []) == m;
      }
      hide Exec, Step, Init, Matches;
      if flow.Fail? {
        ghost var e;
        ending, e := RecordFailure(q, job, flow.stage, flow.message, n);
        OneMoreEvent(q, old(Seen()), m, events, e);
        events := events + [e];
      } else {
        ending := flow.ending;
      }
    }

    lemma NothingDrafted(q: Request, s: Organizing.Settings, before: seq<Upshot>, h: seq<Heard>, unloaded: seq<Exn>)
      requires drafts == before
      ensures Accounts(q, s, before, h, unloaded, null, null)
    {
    }

    /** The vault is clean, the job is new or queued, and the text is not indexed. */
    ghost predicate Waits(q: Request)
      requires ValidRepo(repo.repo)
      reads jobs, index, repo
    {
      && Startable(q, repo.repo, jobs.records, index.Of(q.vault)) && IsClean(repo.repo)
      && MayRun(q, jobs.records) && q.sha !in index.Of(q.vault)
    }

    /** `run`: whatever the model answers and whatever raises, the call is a finished run of
      * the ingest machine on the repository, the records and the vault's index. Each exception
      * among its events was raised by the component that its stage calls, and what drafting
      * came to has a reason. So if nothing failed, a good batch for a fresh text is one commit
      * and a success. */
    method Ingest(q: Request, client: Client, s: Organizing.Settings)
      returns (ending: Ending, ghost events: seq<Event>, ghost surveyed: Budget?, ghost organized: Budget?)
      requires jobs.Valid() && ValidRepo(repo.repo) && SettingsFor(q, s)
      modifies client, jobs, index, repo, `unloaded, `drafts
      ensures forall v :: v != q.vault ==> index.Of(v) == old(index.Of(v))
      ensures var s0 := Start(q, old(repo.repo), old(jobs.records), old(index.Of(q.vault)));
        && Matches(q, Exec(q, s0, events)) && Exec(q, s0, events).l.pc == Done(ending)
        && Seen() == NotedAll(q, old(Seen()), s0, events)
      ensures old(client.heard) <= client.heard && old(unloaded) <= unloaded
      ensures Accounts(q, s, old(drafts), client.heard[|old(client.heard)|..], unloaded[|old(unloaded)|..],
                       surveyed, organized)
      ensures (surveyed != null ==> fresh(surveyed)) && (organized != null ==> fresh(organized))
      ensures old(Waits(q)) && NoFailure(old(Seen()), Seen()) ==>
        DraftedAndCommitted(q, old(repo.repo), old(Seen()), Seen(), repo.repo.chain, ending)
    {
      ghost var l := Seen();
      ghost var waits := Waits(q);
      ghost var m := Start(q, repo.repo, jobs.records, index.Of(q.vault));
      assert Matches(q, m) && m.l.pc.Load?;
      assert waits ==> Startable(q, m.repo, m.records, m.index) && IsClean(m.repo)
                       && MayRun(q, m.records) && q.sha !in m.index;
      hide *;
      var flow, job;
      ghost var more;
      flow, job, events, surveyed, organized := Attempt(q, client, s, m);
      ending, more := HandleFailure(q, job, flow, Exec(q, m, events));
      MoreEvents(q, l, m, events, more);
      events := events + more;
      if waits && NoFailure(l, Seen()) {
        IsUntouched(q, m.repo, m.records, m.index);
        DoneThere(Exec(q, m, events), ending);
        QuietRunsCommit(q, m, l, events);
        MatchesSays(q, Exec(q, m, events));
      }
    }

    lemma MatchesSays(q: Request, m: Run)
      requires Matches(q, m)
      ensures m.repo == repo.repo
    {
    }
  }

  lemma DoneThere(r: Run, ending: Ending)
    requires r.l.pc == Done(ending)
    ensures r.l.pc.Done? && r.l.pc.ending == ending
  {
  }
}
