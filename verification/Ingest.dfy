/** One ingest as a state machine: every effect of `IngestPipeline.run` is one step that
  * succeeds or raises. Events carry what the outside world decides (the model's batch, the
  * fetched commits, the exception). */
module Ingest {
  import opened Prelude
  import opened Job
  import opened Git
  import opened Frontmatter
  import JobStore
  import Notes

  /** The arguments of `run`. `today` stamps the notes, `day` is the date while they are written. */
  datatype Request = Request(
    job: string, vault: string, text: string, sha: string, sourceLabel: string,
    archive: bool, autoPush: bool, today: Date, day: Date, y: TitleCodec)

  /** A stamped, validated write. */
  datatype Draft = Draft(note: Note, isNew: bool)

  datatype SourceRecord = SourceRecord(
    sha: string, job: string, commit: nat, touched: seq<string>, ingestedAt: Date, sourceLabel: string)

  type Index = map<string, SourceRecord>

  /** How `run` ends. */
  datatype Ending =
    | Returned(record: JobRecord)     // a terminal record
    | Unstarted(exn: Exn)             // raised before the job was marked running
    | Reraised(exn: Exn)              // transient, after rolling back
    | Escaped(exn: Exn)               // not a GroundtruthError: no handler runs
    | RollbackRaised(exn: Exn)
    | RecordRaised(exn: Exn)          // the FAILED record could not be stored

  datatype After = ThenFail(stage: string, message: string) | ThenRaise(exn: Exn)

  datatype Pc =
    | Load | MarkRunning
    | CleanTree | Dedup | DedupFinish | PreSync | Drafting
    | WriteText | WriteManifest | WriteNote(i: nat)
    | Stage | CommitNotes | ReadHead
    | SetManifest | Restage | AmendHead | ReadAmended
    | PutIndex | PushHead | Finish(pushError: Option<string>)
    | Reset(after: After) | Clean(after: After) | FailUpdate(stage: string, message: string)
    | Done(ending: Ending)

  /** The local variables of one `run`. `checked` and `base` record that the clean-tree check
    * passed, and the history then (after the pull). */
  datatype Local = Local(
    pc: Pc, job: JobRecord, current: string, batch: seq<Draft>, downgrades: map<string, seq<string>>,
    commit: nat, checked: bool, base: seq<Commit>)

  /** A run with the shared state it acts on: its repository, the job records, its vault's index. */
  datatype Run = Run(repo: Repo, records: JobStore.Records, index: Index, l: Local)

  datatype Event =
    | Go
    | Fetched(trees: seq<Tree>)
    | Drafted(batch: seq<Draft>, downgrades: map<string, seq<string>>)
    | StageFailed(stage: string, message: string)
    | Raise(exn: Exn, staged: Tree, work: Tree)   // what a failing command leaves behind

  // ----- what gets written ----------------------------------------------------------

  function TextAt(t: Tree, f: File): Option<string> {
    if f !in t then None
    else match t[f]
      case Text(text) => Some(text)
      case Manifest(_, _, _) => Some("")
  }

  /** Created paths, then updated ones. */
  function Touched(batch: seq<Draft>): seq<string> {
    Created(batch) + Updated(batch)
  }

  function Created(batch: seq<Draft>): seq<string> {
    Map((d: Draft) => d.note.path, Filter((d: Draft) => d.isNew, batch))
  }

  function Updated(batch: seq<Draft>): seq<string> {
    Map((d: Draft) => d.note.path, Filter((d: Draft) => !d.isNew, batch))
  }

  function WithText(q: Request, t: Tree): Tree {
    if ArchiveText(q.sha) in t then t else t[ArchiveText(q.sha) := Text(q.text)]
  }

  function WithManifest(q: Request, t: Tree, batch: seq<Draft>): Tree {
    if ArchiveManifest(q.sha) in t then t
    else t[ArchiveManifest(q.sha) := Manifest(q.job, Touched(batch), None)]
  }

  function Archived(q: Request, t: Tree, batch: seq<Draft>): Tree {
    if q.archive then WithManifest(q, WithText(q, t), batch) else t
  }

  function WithNote(q: Request, t: Tree, note: Note): Result<Tree, Exn> {
    var n :- Notes.Persist(q.y, TextAt(t, NoteFile(note.path)), note, q.day);
    if Valid(n.frontmatter) then Ok(t[NoteFile(note.path) := Text(RenderNote(q.y, n))])
    else Err(Exn(Foreign, "invalid frontmatter"))
  }

  function WithNotes(q: Request, t: Tree, batch: seq<Draft>): Result<Tree, Exn> {
    if batch == [] then Ok(t)
    else
      var before :- WithNotes(q, t, Init(batch));
      WithNote(q, before, Last(batch).note)
  }

  /** The tree of the first commit: the base with the archive files and the notes. */
  function DraftTree(q: Request, base: Tree, batch: seq<Draft>): Result<Tree, Exn> {
    WithNotes(q, Archived(q, base, batch), batch)
  }

  /** The manifest with the commit's id recorded; it must be there to be read. */
  function WithCommitId(q: Request, t: Tree, id: nat): Result<Tree, Exn> {
    var f := ArchiveManifest(q.sha);
    if f in t && t[f].Manifest? then Ok(t[f := t[f].(commit := Some(id))])
    else Err(Exn(Foreign, "no manifest"))
  }

  function IndexRecord(q: Request, batch: seq<Draft>, commit: nat): SourceRecord {
    SourceRecord(q.sha, q.job, commit, Touched(batch), q.today, q.sourceLabel)
  }

  /** The paths of the notes in a work tree, as listed for the run. */
  function ExistingPaths(t: Tree): set<string> {
    set f | f in t && f.NoteFile? && !Notes.IsSchema(f.path) :: f.path
  }

  /** Every listed note parses. */
  ghost predicate VaultReadable(y: TitleCodec, t: Tree) {
    forall f :: f in t && f.NoteFile? && !Notes.IsSchema(f.path) ==> ParseNote(y, TextAt(t, f).value).Ok?
  }

  predicate DistinctPaths(batch: seq<Draft>) {
    forall i, j :: 0 <= i < j < |batch| ==> batch[i].note.path != batch[j].note.path
  }

  /** What the validator guarantees of the batch it let through. */
  predicate Gate(q: Request, batch: seq<Draft>, existing: set<string>) {
    && batch != [] && DistinctPaths(batch)
    && forall i :: 0 <= i < |batch| ==>
      && (batch[i].isNew <==> batch[i].note.path !in existing)
      && !Notes.IsSchema(batch[i].note.path)
      && Valid(batch[i].note.frontmatter)
      && batch[i].note.frontmatter.sources == [q.sha]
  }

  // ----- steps ----------------------------------------------------------------------

  function Goto(r: Run, pc: Pc): Run { r.(l := r.l.(pc := pc)) }

  function End(r: Run, ending: Ending): Run { Goto(r, Done(ending)) }

  /** `s` is `r` elsewhere: the repository, the records and the index are the same. */
  predicate OnlyMoved(r: Run, s: Run) { s == Goto(r, s.l.pc) }

  /** `s` agrees with `r` on what the clean-tree check and the drafting fixed. */
  predicate SameTerms(r: Run, s: Run) {
    s.l.checked == r.l.checked && s.l.base == r.l.base && s.l.batch == r.l.batch
  }

  /** The records differ at `id` at most. */
  predicate OneRecord(before: JobStore.Records, after: JobStore.Records, id: string) {
    before == after || (id in after && after == before[id := after[id]])
  }

  /** The stages an exception or an indexed commit leads to. */
  predicate Late(pc: Pc) {
    pc.PushHead? || pc.Finish? || pc.Reset? || pc.Clean? || pc.FailUpdate? || pc.Done?
  }

  /** The stages up to the end of the dedup check. */
  predicate Early(pc: Pc) {
    pc.Load? || pc.MarkRunning? || pc.CleanTree? || pc.Dedup? || pc.DedupFinish?
  }

  /** The `except` clauses of `run`. */
  function Handle(r: Run, exn: Exn): (s: Run)
    ensures OnlyMoved(r, s) && Late(s.l.pc)
  {
    if !exn.Groundtruth() then End(r, Escaped(exn))
    else if exn.kind == Transient then Goto(r, Reset(ThenRaise(exn)))
    else Goto(r, Reset(ThenFail(r.l.current, exn.message)))
  }

  /** Stages whose failing command may leave the index and the work tree in any state. */
  predicate Mutates(pc: Pc) {
    pc.WriteText? || pc.WriteManifest? || pc.WriteNote? || pc.Stage? || pc.CommitNotes?
    || pc.SetManifest? || pc.Restage? || pc.AmendHead? || pc.Reset? || pc.Clean?
  }

  function Disturbed(r: Run, staged: Tree, work: Tree): Run {
    if Mutates(r.l.pc) then r.(repo := r.repo.(staged := staged, work := work)) else r
  }

  function Settle(r: Run, job: JobRecord, to: JobState): (s: Result<Run, Exn>)
    ensures s.Ok? ==> s.value == Goto(r.(records := r.records[job.id := job.(state := to)]), s.value.l.pc)
    ensures s.Ok? ==> s.value.l.pc.Done?
  {
    var moved :- TransitionedTo(job, to);
    var records :- JobStore.Put(r.records, moved);
    Ok(End(r.(records := records), Returned(moved)))
  }

  function StepLoad(q: Request, r: Run): (s: Run)
    ensures OneRecord(r.records, s.records, q.job)
    ensures s.index == r.index && SameTerms(r, s) && s.repo == r.repo
    ensures !Late(s.l.pc)
    ensures !s.l.pc.ReadHead?
  {
    if q.job in r.records then r.(l := r.l.(job := r.records[q.job], pc := MarkRunning))
    else
      var job := NewJob(q.job, q.vault);
      r.(records := r.records[q.job := job], l := r.l.(job := job, pc := MarkRunning))
  }

  function StepMarkRunning(q: Request, r: Run): (s: Run)
    ensures OneRecord(r.records, s.records, r.l.job.id)
    ensures s.index == r.index && SameTerms(r, s) && s.repo == r.repo
    ensures !s.l.pc.ReadHead?
  {
    match TransitionedTo(r.l.job.(sourceSha := Some(q.sha)), Running)
    case Err(exn) => End(r, Unstarted(exn))
    case Ok(job) =>
      match JobStore.Put(r.records, job)
      case Err(exn) => End(r, Unstarted(exn))
      case Ok(records) => r.(records := records, l := r.l.(job := job, pc := CleanTree, current := "clean-tree"))
  }

  function StepCleanTree(r: Run): Run
    requires ValidRepo(r.repo)
  {
    if IsClean(r.repo) then r.(l := r.l.(pc := Dedup, checked := true, base := r.repo.chain))
    else Goto(r, FailUpdate("clean-tree", "working tree is dirty"))
  }

  function StepDedup(q: Request, r: Run): (s: Run)
    ensures OnlyMoved(r, s.(l := s.l.(current := r.l.current)))
    ensures !s.l.pc.ReadHead?
  {
    if q.sha in r.index then Goto(r, DedupFinish)
    else if q.autoPush then r.(l := r.l.(pc := PreSync, current := "pre-sync"))
    else Goto(r, Drafting)
  }

  function StepDedupFinish(q: Request, r: Run): (s: Run)
    ensures OneRecord(r.records, s.records, r.l.job.id)
    ensures s.index == r.index && SameTerms(r, s) && s.repo == r.repo
    ensures !s.l.pc.ReadHead? || s == r
  {
    if q.sha !in r.index then r
    else
      var prior := r.index[q.sha];
      var job := r.l.job.(dedupOf := Some(prior.job), commitSha := Some(prior.commit),
                          sourceSha := Some(q.sha), notesUpdated := prior.touched);
      match Settle(r, job, Succeeded)
      case Ok(s) => s
      case Err(exn) => Handle(r, exn)
  }

  function StepPreSync(r: Run, trees: seq<Tree>): Run
    requires ValidRepo(r.repo)
  {
    var repo := FastForwarded(r.repo, trees);
    r.(repo := repo, l := r.l.(pc := Drafting, base := repo.chain))
  }

  ghost function StepDrafting(q: Request, r: Run, batch: seq<Draft>, downgrades: map<string, seq<string>>): Run {
    if VaultReadable(q.y, r.repo.work) && Gate(q, batch, ExistingPaths(r.repo.work)) then
      r.(l := r.l.(pc := if q.archive then WriteText else WriteNote(0),
                   current := "write-validation", batch := batch, downgrades := downgrades))
    else Handle(r, Exn(Terminal, "rejected"))
  }

  function OnWork(r: Run, work: Tree, pc: Pc): Run {
    r.(repo := r.repo.(work := work), l := r.l.(pc := pc))
  }

  function StepWriteNote(q: Request, r: Run, i: nat): (s: Run)
    ensures s.records == r.records && s.index == r.index && SameTerms(r, s)
    ensures s.repo == r.repo.(work := s.repo.work) && !Early(s.l.pc)
    ensures !s.l.pc.ReadHead?
  {
    if i >= |r.l.batch| then Goto(r, Stage)
    else
      match WithNote(q, r.repo.work, r.l.batch[i].note)
      case Ok(work) => OnWork(r, work, if i + 1 < |r.l.batch| then WriteNote(i + 1) else Stage)
      case Err(exn) => Handle(r, exn)
  }

  function StepCommit(q: Request, r: Run): (s: Run)
    requires ValidRepo(r.repo)
    ensures s.records == r.records && s.index == r.index && SameTerms(r, s) && !Early(s.l.pc)
  {
    match Committed(r.repo, Some(Origin(q.job, q.sha)))
    case Ok(repo) => r.(repo := repo, l := r.l.(pc := ReadHead))
    case Err(exn) => Handle(r, exn)
  }

  function StepReadHead(r: Run, next: Pc): Run
    requires ValidRepo(r.repo)
  {
    r.(l := r.l.(pc := next, commit := Last(r.repo.chain).id))
  }

  function StepSetManifest(q: Request, r: Run): (s: Run)
    ensures s.records == r.records && s.index == r.index && SameTerms(r, s)
    ensures s.repo == r.repo.(work := s.repo.work) && !Early(s.l.pc)
    ensures !s.l.pc.ReadHead?
  {
    match WithCommitId(q, r.repo.work, r.l.commit)
    case Ok(work) => OnWork(r, work, Restage)
    case Err(exn) => Handle(r, exn)
  }

  function StepAmend(r: Run): (s: Run)
    requires ValidRepo(r.repo)
    ensures s.records == r.records && s.index == r.index && SameTerms(r, s) && !Early(s.l.pc)
    ensures !s.l.pc.ReadHead?
  {
    match Amended(r.repo)
    case Ok(repo) => r.(repo := repo, l := r.l.(pc := ReadAmended))
    case Err(exn) => Handle(r, exn)
  }

  function StepPutIndex(q: Request, r: Run): Run {
    r.(index := r.index[q.sha := IndexRecord(q, r.l.batch, r.l.commit)],
       l := r.l.(pc := if q.autoPush then PushHead else Finish(None)))
  }

  function StepFinish(q: Request, r: Run, pushError: Option<string>): (s: Run)
    ensures OneRecord(r.records, s.records, r.l.job.id)
    ensures s.index == r.index && SameTerms(r, s) && s.repo == r.repo
    ensures Late(s.l.pc)
  {
    var job := r.l.job.(commitSha := Some(r.l.commit), notesCreated := Created(r.l.batch),
                        notesUpdated := Updated(r.l.batch), linkDowngrades := r.l.downgrades, error := pushError);
    match Settle(r, job, Succeeded)
    case Ok(s) => s
    case Err(exn) => Handle(r, exn)
  }

  function StepClean(r: Run, after: After): (s: Run)
    ensures s.records == r.records && s.index == r.index && SameTerms(r, s) && s.repo.chain == r.repo.chain
    ensures Late(s.l.pc)
  {
    var s := r.(repo := CleanUntracked(r.repo));
    match after
    case ThenFail(stage, message) => Goto(s, FailUpdate(stage, message))
    case ThenRaise(exn) => End(s, Reraised(exn))
  }

  function StepFailUpdate(r: Run, stage: string, message: string): (s: Run)
    ensures OneRecord(r.records, s.records, r.l.job.id)
    ensures s.index == r.index && SameTerms(r, s) && s.repo == r.repo
    ensures Late(s.l.pc)
  {
    match Settle(r, FailedWith(r.l.job, stage, message), Failed)
    case Ok(s) => s
    case Err(exn) => End(r, RecordRaised(exn))
  }

  /** The effect of the current stage when it does not raise. */
  ghost function Advance(q: Request, r: Run): Run
    requires ValidRepo(r.repo)
  {
    match r.l.pc
    case Load => StepLoad(q, r)
    case MarkRunning => StepMarkRunning(q, r)
    case CleanTree => StepCleanTree(r)
    case Dedup => StepDedup(q, r)
    case DedupFinish => StepDedupFinish(q, r)
    case PreSync => r      // waits for Fetched
    case Drafting => r     // waits for Drafted
    case WriteText => OnWork(r, WithText(q, r.repo.work), WriteManifest)
    case WriteManifest => OnWork(r, WithManifest(q, r.repo.work, r.l.batch), WriteNote(0))
    case WriteNote(i) => StepWriteNote(q, r, i)
    case Stage => r.(repo := AddAll(r.repo), l := r.l.(pc := CommitNotes))
    case CommitNotes => StepCommit(q, r)
    case ReadHead => StepReadHead(r, if q.archive then SetManifest else PutIndex)
    case SetManifest => StepSetManifest(q, r)
    case Restage => r.(repo := AddAll(r.repo), l := r.l.(pc := AmendHead))
    case AmendHead => StepAmend(r)
    case ReadAmended => StepReadHead(r, PutIndex)
    case PutIndex => StepPutIndex(q, r)
    case PushHead => Goto(r, Finish(None))
    case Finish(pushError) => StepFinish(q, r, pushError)
    case Reset(after) => r.(repo := ResetHard(r.repo), l := r.l.(pc := Clean(after)))
    case Clean(after) => StepClean(r, after)
    case FailUpdate(stage, message) => StepFailUpdate(r, stage, message)
    case Done(_) => r
  }

  /** Where an exception raised by the current stage goes. */
  function Throw(r: Run, exn: Exn): Run {
    if r.l.pc.Load? || r.l.pc.MarkRunning? then End(r, Unstarted(exn))
    else if r.l.pc.PreSync? && exn.kind == GitConflict then Goto(r, FailUpdate("pre-sync", exn.message))
    else if r.l.pc.PushHead? && exn.kind == GitPush then Goto(r, Finish(Some(exn.message)))
    else if r.l.pc.Reset? || r.l.pc.Clean? then End(r, RollbackRaised(exn))
    else if r.l.pc.FailUpdate? then End(r, RecordRaised(exn))
    else if r.l.pc.Done? then r
    else Handle(r, exn)
  }

  ghost function Step(q: Request, r: Run, e: Event): Run {
    if !ValidRepo(r.repo) then r
    else
      match e
      case Go => Advance(q, r)
      case Fetched(trees) => if r.l.pc.PreSync? then StepPreSync(r, trees) else r
      case Drafted(batch, downgrades) => if r.l.pc.Drafting? then StepDrafting(q, r, batch, downgrades) else r
      case StageFailed(stage, message) =>
        if r.l.pc.Drafting? then Goto(r, Reset(ThenFail(stage, message))) else r
      case Raise(exn, staged, work) => Throw(Disturbed(r, staged, work), exn)
  }

  ghost function Exec(q: Request, r: Run, events: seq<Event>): Run {
    if events == [] then r else Step(q, Exec(q, r, Init(events)), Last(events))
  }

  function Fresh(q: Request): Local {
    Local(Load, NewJob(q.job, q.vault), "init", [], map[], 0, false, [])
  }

  function Start(q: Request, repo: Repo, records: JobStore.Records, index: Index): Run {
    Run(repo, records, index, Fresh(q))
  }

  // ----- events one by one ----------------------------------------------------------

  lemma ExecSnoc(q: Request, r: Run, events: seq<Event>, e: Event)
    ensures Exec(q, r, events + [e]) == Step(q, Exec(q, r, events), e)
  {
  }

  lemma {:induction false} ExecConcat(q: Request, r: Run, a: seq<Event>, b: seq<Event>)
    ensures Exec(q, r, a + b) == Exec(q, Exec(q, r, a), b)
  {
    if b == [] {
      assert a + b == a;
    } else {
      assert Init(a + b) == a + Init(b);
      ExecConcat(q, r, a, Init(b));
    }
  }

  lemma ExecOne(q: Request, r: Run, e: Event)
    ensures Exec(q, r, [e]) == Step(q, r, e)
  {
  }

  lemma StepRaise(q: Request, r: Run, exn: Exn, staged: Tree, work: Tree)
    requires ValidRepo(r.repo)
    ensures Step(q, r, Raise(exn, staged, work)) == Throw(Disturbed(r, staged, work), exn)
  {
  }

  lemma StepGo(q: Request, r: Run)
    requires ValidRepo(r.repo)
    ensures Step(q, r, Go) == Advance(q, r)
  {
  }

  /** A rollback that succeeds is the two last steps. */
  lemma RollbackInTwo(q: Request, r: Run, after: After)
    requires ValidRepo(r.repo) && r.l.pc == Reset(after)
    ensures var s := Exec(q, r, [Go, Go]);
      && s.repo == CleanUntracked(ResetHard(r.repo)) && s.records == r.records && s.index == r.index
      && s.l == r.l.(pc := if after.ThenFail? then FailUpdate(after.stage, after.message)
                           else Done(Reraised(after.exn)))
  {
    hide Exec, ValidRepo;
    ExecOne(q, r, Go);
    ExecSnoc(q, r, [Go], Go);
    assert [Go] + [Go] == [Go, Go];
    RollbackSteps(q, r, after);
  }

  lemma RollbackSteps(q: Request, r: Run, after: After)
    requires ValidRepo(r.repo) && r.l.pc == Reset(after)
    ensures var reset := Step(q, r, Go);
      && ValidRepo(reset.repo) && reset == r.(repo := ResetHard(r.repo), l := r.l.(pc := Pc.Clean(after)))
      && Step(q, reset, Go) == StepClean(reset, after)
  {
    StepGo(q, r);
    var reset := r.(repo := ResetHard(r.repo), l := r.l.(pc := Pc.Clean(after)));
    assert Advance(q, r) == reset;
    StepGo(q, reset);
    hide Step;
  }
}
