/** From the model's staged writes to the drafts of a run, and what drafting may fail for. */
module Drafting {
  import opened Prelude
  import opened Git
  import opened Frontmatter
  import opened Budgets
  import opened WriteTools
  import opened Agent
  import opened Ingest
  import opened IngestLogs
  import Notes
  import Organizing
  import Validator
  import Text

  /** The settings an ingest drafts under are those of its request. */
  ghost predicate SettingsFor(q: Request, s: Organizing.Settings) {
    Organizing.ValidSettings(s) && s.sha == q.sha && s.today == q.today && s.c.y == q.y
  }

  predicate Draftable(n: PendingNote) { n.body.Prose? && n.frontmatter.Some? }

  function ToDraft(n: PendingNote): Draft
    requires Draftable(n)
  {
    Draft(Note(n.path, n.frontmatter.value, n.body.text), n.isNew)
  }

  function ToDrafts(batch: seq<PendingNote>): (r: seq<Draft>)
    requires forall i :: 0 <= i < |batch| ==> Draftable(batch[i])
    ensures |r| == |batch|
    ensures forall i :: 0 <= i < |batch| ==> r[i] == ToDraft(batch[i])
  {
    if batch == [] then [] else [ToDraft(batch[0])] + ToDrafts(batch[1..])
  }

  lemma SchemaIsASegment(path: string)
    requires Notes.IsSchema(path)
    ensures Last(Text.Split(path, '/')) == "schema.md"
  {
    if path == "schema.md" {
      Text.SplitFree(path, '/');
    } else {
      var folder := path[..|path| - |"/schema.md"|];
      assert path == folder + "/" + "schema.md";
      Validator.SafePartLastSegment(folder, "schema.md");
    }
  }

  /** What the validator accepted is what the transaction relies on. */
  lemma DraftsAreGated(q: Request, s: Organizing.Settings, batch: seq<PendingNote>)
    requires s.sha == q.sha && batch != [] && Distinct(PathsOf(batch))
    requires forall i :: 0 <= i < |batch| ==> Organizing.Accepted(s, batch[i])
    ensures forall i :: 0 <= i < |batch| ==> Draftable(batch[i])
    ensures Gate(q, ToDrafts(batch), s.c.existing)
  {
    hide *;
    forall i | 0 <= i < |batch|
      ensures Draftable(batch[i]) && DraftOk(q, s.c.existing, ToDraft(batch[i]))
    {
      AcceptedIsOk(q, s, batch[i]);
    }
    DraftPaths(batch);
    GateOfDrafts(q, s.c.existing, ToDrafts(batch));
  }

  lemma GatedIsAccepted(q: Request, s: Organizing.Settings, calls: seq<Call>, draft: seq<PendingNote>, attempt: nat,
                        batch: seq<PendingNote>, downgrades: map<string, seq<string>>)
    requires Organizing.ValidSettings(s) && s.sha == q.sha
    requires Organizing.Gated(s, calls, draft, attempt, batch, downgrades)
    ensures forall i :: 0 <= i < |batch| ==> Draftable(batch[i])
    ensures Gate(q, ToDrafts(batch), s.c.existing)
  {
    hide *;
    Organizing.GatedBatch(s, calls, draft, attempt, batch, downgrades);
    DraftsAreGated(q, s, batch);
  }

  lemma DraftPaths(batch: seq<PendingNote>)
    requires Distinct(PathsOf(batch)) && forall i :: 0 <= i < |batch| ==> Draftable(batch[i])
    ensures DistinctPaths(ToDrafts(batch))
  {
    hide ToDrafts, PathsOf, Draftable, ToDraft;
    forall i, j | 0 <= i < j < |batch|
      ensures ToDrafts(batch)[i].note.path != ToDrafts(batch)[j].note.path
    {
      PathOfDraft(batch, i);
      PathOfDraft(batch, j);
    }
  }

  lemma PathOfDraft(batch: seq<PendingNote>, i: nat)
    requires i < |batch| && forall k :: 0 <= k < |batch| ==> Draftable(batch[k])
    ensures |PathsOf(batch)| == |batch| && ToDrafts(batch)[i].note.path == PathsOf(batch)[i]
  {
    hide ToDrafts, Draftable;
    assert Draftable(batch[i]) && ToDrafts(batch)[i] == ToDraft(batch[i]);
  }

  lemma GateOfDrafts(q: Request, existing: set<string>, drafts: seq<Draft>)
    requires drafts != [] && DistinctPaths(drafts)
    requires forall i :: 0 <= i < |drafts| ==> DraftOk(q, existing, drafts[i])
    ensures Gate(q, drafts, existing)
  {
  }

  /** What the transaction relies on for one note. */
  predicate DraftOk(q: Request, existing: set<string>, d: Draft) {
    && (d.isNew <==> d.note.path !in existing) && !Notes.IsSchema(d.note.path)
    && Valid(d.note.frontmatter) && d.note.frontmatter.sources == [q.sha]
  }

  lemma AcceptedIsOk(q: Request, s: Organizing.Settings, n: PendingNote)
    requires s.sha == q.sha && Organizing.Accepted(s, n)
    ensures Draftable(n) && DraftOk(q, s.c.existing, ToDraft(n))
  {
    if Notes.IsSchema(n.path) {
      SchemaIsASegment(n.path);
    }
    hide Notes.IsSchema, Text.Split;
  }

  // ----- why a drafting came out as it did ------------------------------------------

  /** The settings, with the notes of a work tree as the existing ones. */
  function Listing(s: Organizing.Settings, work: Tree): Organizing.Settings {
    s.(c := s.c.(existing := ExistingPaths(work)))
  }

  /** A note of the tree does not parse, for this reason. */
  ghost predicate Unparsed(y: TitleCodec, work: Tree, exn: Exn) {
    exists f :: f in work && f.NoteFile? && !Notes.IsSchema(f.path) && ParseNote(y, TextAt(work, f).value) == Err(exn)
  }

  /** The drafts are a batch that the gate let through, out of what the model said. */
  ghost predicate DraftedBy(s: Organizing.Settings, h: seq<Heard>, batch: seq<Draft>,
                            downgrades: map<string, seq<string>>) {
    exists calls, drafted, attempt, accepted | (forall i :: 0 <= i < |accepted| ==> Draftable(accepted[i])) ::
      && Organizing.Gated(s, calls, drafted, attempt, accepted, downgrades)
      && Organizing.Tried(s, h, attempt, calls) && Organizing.Came(s, h, Ok(drafted))
      && batch == ToDrafts(accepted)
  }

  /** What drafting came to has a reason in what the model said since, in the meters, in the
    * notes of the vault or in the context that could not be loaded. */
  ghost predicate Justified(q: Request, s: Organizing.Settings, o: Upshot, h: seq<Heard>, unloaded: seq<Exn>,
                            surveySpent: bool, organizeSpent: bool) {
    var g := Listing(s, o.work);
    match o.event
    case Drafted(batch, downgrades) =>
      && unloaded == [] && VaultReadable(q.y, o.work) && Gate(q, batch, ExistingPaths(o.work))
      && DraftedBy(g, h, batch, downgrades)
    case StageFailed(stage, message) =>
      && unloaded == [] && VaultReadable(q.y, o.work)
      && Organizing.DraftFails(g, h, surveySpent, organizeSpent, Organizing.StageFailure(stage, message))
    case Raise(exn, _, _) =>
      || unloaded == [exn]
      || (unloaded == [] && Unparsed(q.y, o.work, exn))
      || (unloaded == [] && VaultReadable(q.y, o.work)
          && Organizing.DraftFails(g, h, surveySpent, organizeSpent, Organizing.Threw(exn)))
    case _ => false
  }

  /** A meter, if there is one, that tripped at a limit of the settings. */
  ghost predicate Spent(s: Organizing.Settings, h: seq<Heard>, b: Budget?)
    reads b
  {
    b != null && Organizing.Meters(s, h, b) && b.tripped
  }

  /** The event that a drafting against `work` is. */
  predicate Reports(e: Event, r: Result<seq<Draft>, Organizing.Failure>, downgrades: map<string, seq<string>>) {
    match r
    case Ok(batch) => e == Drafted(batch, downgrades)
    case Err(StageFailure(stage, message)) => e == StageFailed(stage, message)
    case Err(Threw(exn)) => e.Raise? && e.exn == exn
  }

  lemma UnreadIsJustified(q: Request, s: Organizing.Settings, o: Upshot, h: seq<Heard>, unloaded: seq<Exn>,
                          surveySpent: bool, organizeSpent: bool)
    requires o.event.Raise?
    requires unloaded == [o.event.exn] || (unloaded == [] && Unparsed(q.y, o.work, o.event.exn))
    ensures Justified(q, s, o, h, unloaded, surveySpent, organizeSpent)
  {
    hide Unparsed, VaultReadable, Organizing.DraftFails;
  }

  lemma FailureIsJustified(q: Request, s: Organizing.Settings, o: Upshot, h: seq<Heard>, f: Organizing.Failure,
                           surveyed: Budget, organized: Budget)
    requires VaultReadable(q.y, o.work) && Reports(o.event, Err(f), map[])
    requires Organizing.Meters(Listing(s, o.work), h, surveyed) && Organizing.Meters(Listing(s, o.work), h, organized)
    requires Organizing.DraftFails(Listing(s, o.work), h, surveyed.tripped, organized.tripped, f)
    ensures Justified(q, s, o, h, [], Spent(s, h, surveyed), Spent(s, h, organized))
  {
    assert Spent(s, h, surveyed) == surveyed.tripped && Spent(s, h, organized) == organized.tripped;
    hide VaultReadable, Organizing.DraftFails, Spent, Organizing.Meters;
  }

  lemma DraftIsJustified(q: Request, s: Organizing.Settings, o: Upshot, h: seq<Heard>, calls: seq<Call>,
                         drafted: seq<PendingNote>, attempt: nat, accepted: seq<PendingNote>,
                         surveySpent: bool, organizeSpent: bool)
    requires SettingsFor(q, s) && VaultReadable(q.y, o.work) && o.event.Drafted?
    requires Organizing.Gated(Listing(s, o.work), calls, drafted, attempt, accepted, o.event.downgrades)
    requires Organizing.Tried(Listing(s, o.work), h, attempt, calls)
    requires Organizing.Came(Listing(s, o.work), h, Ok(drafted))
    requires forall i :: 0 <= i < |accepted| ==> Draftable(accepted[i])
    requires o.event.batch == ToDrafts(accepted) && Gate(q, o.event.batch, ExistingPaths(o.work))
    ensures Justified(q, s, o, h, [], surveySpent, organizeSpent)
  {
    hide VaultReadable, Organizing.Gated, Organizing.Tried, Organizing.Came, Gate, Draftable, ToDrafts, DraftedBy,
      Listing;
    IsDraftedBy(Listing(s, o.work), h, calls, drafted, attempt, accepted, o.event.downgrades);
  }

  lemma IsDraftedBy(s: Organizing.Settings, h: seq<Heard>, calls: seq<Call>, drafted: seq<PendingNote>, attempt: nat,
                    accepted: seq<PendingNote>, downgrades: map<string, seq<string>>)
    requires Organizing.Gated(s, calls, drafted, attempt, accepted, downgrades)
    requires Organizing.Tried(s, h, attempt, calls) && Organizing.Came(s, h, Ok(drafted))
    requires forall i :: 0 <= i < |accepted| ==> Draftable(accepted[i])
    ensures DraftedBy(s, h, ToDrafts(accepted), downgrades)
  {
    hide Organizing.Gated, Organizing.Tried, Organizing.Came, Draftable, ToDrafts;
  }

  /** Asks the model for a batch against the notes there are; only a gated one comes back. */
  method DraftAgainst(q: Request, client: Client, s: Organizing.Settings, existing: set<string>, ghost work: Tree)
    returns (r: Result<seq<Draft>, Organizing.Failure>, downgrades: map<string, seq<string>>,
             ghost surveyed: Budget, ghost organized: Budget)
    requires SettingsFor(q, s) && VaultReadable(q.y, work) && existing == ExistingPaths(work)
    modifies client
    ensures old(client.heard) <= client.heard && fresh(surveyed) && fresh(organized)
    ensures r.Ok? ==> Gate(q, r.value, ExistingPaths(work))
    ensures var h := client.heard[|old(client.heard)|..];
      forall e :: Reports(e, r, downgrades) ==>
        Justified(q, s, Upshot(work, e), h, [], Spent(s, h, surveyed), Spent(s, h, organized))
  {
    hide Justified, Spent, Gate, VaultReadable, ExistingPaths, Organizing.Gated, Organizing.Tried, Organizing.Came,
      Organizing.DraftFails, Organizing.Meters, ToDrafts;
    ghost var h0 := client.heard;
    var gate := s.(c := s.c.(existing := existing));
    var drafted;
    ghost var calls, draft, attempt;
    drafted, downgrades, calls, draft, attempt, surveyed, organized := Organizing.DraftBatch(client, gate);
    ghost var h := client.heard[|h0|..];
    if drafted.Err? {
      r := Err(drafted.error);
      forall e | Reports(e, r, downgrades)
        ensures Justified(q, s, Upshot(work, e), h, [], Spent(s, h, surveyed), Spent(s, h, organized))
      {
        FailureIsJustified(q, s, Upshot(work, e), h, drafted.error, surveyed, organized);
      }
    } else {
      GatedIsAccepted(q, gate, calls, draft, attempt, drafted.value, downgrades);
      r := Ok(ToDrafts(drafted.value));
      ghost var e := Drafted(r.value, downgrades);
      DraftIsJustified(q, s, Upshot(work, e), h, calls, draft, attempt, drafted.value,
                       Spent(s, h, surveyed), Spent(s, h, organized));
    }
  }
}
