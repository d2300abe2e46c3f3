/** Provenance over whole histories: the index and the notes agree on which source is where. */
module HistoryNames {
  import opened Prelude
  import opened Frontmatter
  import opened Git
  import opened Ingest
  import opened IngestSafety
  import opened IngestTheorems
  import opened Provenances
  import opened Histories

  /** Every note an index record lists names that record's source. */
  ghost predicate NamesIndexed(y: TitleCodec, index: Index, t: Tree) {
    forall sha, path :: sha in index && path in index[sha].touched ==> Names(y, t, path, sha)
  }

  ghost predicate KeepsNames(y: TitleCodec, a: Tree, b: Tree) {
    forall path, sha :: Names(y, a, path, sha) ==> Names(y, b, path, sha)
  }

  ghost predicate SoundBatch(q: Request, batch: seq<Draft>) {
    forall i :: 0 <= i < |batch| ==> SoundDraft(q, batch[i])
  }

  ghost predicate RunNames(y: TitleCodec, q: Request, r: Run)
    requires ValidRepo(r.repo)
  {
    q.y == y && SoundBatch(q, r.l.batch) && NamesIndexed(y, r.index, HeadTree(r.repo))
  }

  // ----- one step -------------------------------------------------------------------

  lemma KeepingKeeps(y: TitleCodec, index: Index, a: Tree, b: Tree)
    requires NamesIndexed(y, index, a) && KeepsNames(y, a, b)
    ensures NamesIndexed(y, index, b)
  {
    hide Names;
  }

  lemma DraftKeepsNames(q: Request, base: Tree, batch: seq<Draft>)
    requires SoundBatch(q, batch) && DraftTree(q, base, batch).Ok?
    ensures KeepsNames(q.y, base, DraftTree(q, base, batch).value)
  {
    hide Names, SoundDraft, Archived, WithNotes;
    ArchiveKeepsNames(q, base, batch);
    NotesName(q, Archived(q, base, batch), batch);
  }

  /** The commit keeps every name HEAD had. */
  lemma CommitKeepsNames(q: Request, r: Run)
    requires Inv(q, r) && r.l.pc.CommitNotes? && SoundBatch(q, r.l.batch)
    ensures ValidRepo(r.repo) && ValidRepo(Advance(q, r).repo)
    ensures KeepsNames(q.y, HeadTree(r.repo), HeadTree(Advance(q, r).repo))
  {
    AdvanceKeepsInv(q, r);
    ValidOfInv(q, r);
    ValidOfInv(q, Advance(q, r));
    hide DraftTree, Gate, IndexOn, KeyedById, SoundBatch, KeepsNames, IdsAscend;
    DraftKeepsNames(q, BaseTree(r), r.l.batch);
    SameKeepsNames(q.y, HeadTree(r.repo));
  }

  lemma SameKeepsNames(y: TitleCodec, t: Tree)
    ensures KeepsNames(y, t, t)
  {
  }

  lemma AmendKeepsNames(q: Request, r: Run)
    requires Inv(q, r) && r.l.pc.AmendHead?
    ensures ValidRepo(r.repo) && ValidRepo(Advance(q, r).repo)
    ensures KeepsNames(q.y, HeadTree(r.repo), HeadTree(Advance(q, r).repo))
  {
    AdvanceKeepsInv(q, r);
    ValidOfInv(q, r);
    ValidOfInv(q, Advance(q, r));
    hide DraftTree, Gate, IndexOn, KeyedById, Names, IdsAscend, WithCommitId;
    ManifestKeepsNames(q, HeadTree(r.repo), Last(r.repo.chain).id);
    SameKeepsNames(q.y, HeadTree(r.repo));
  }

  /** What is about to be indexed is named. */
  lemma IndexedIsNamed(q: Request, r: Run)
    requires Inv(q, r) && r.l.pc.PutIndex? && SoundBatch(q, r.l.batch)
    ensures ValidRepo(r.repo)
    ensures forall path :: path in Touched(r.l.batch) ==> Names(q.y, HeadTree(r.repo), path, q.sha)
  {
    hide Names, SoundDraft, Touched, Gate, IndexOn, KeyedById, IdsAscend, DraftTree, WithCommitId;
    var t := HeadTree(r.repo);
    var id: nat := 0;
    if q.archive {
      var i, draft :| DraftTree(q, BaseTree(r), r.l.batch) == Ok(draft) && WithCommitId(q, draft, i) == Ok(t);
      id := i;
    }
    IngestNames(Ingested(q, r.l.batch, id), BaseTree(r));
  }

  lemma IndexingKeepsNames(y: TitleCodec, index: Index, t: Tree, q: Request, batch: seq<Draft>, id: nat)
    requires NamesIndexed(y, index, t) && forall path :: path in Touched(batch) ==> Names(y, t, path, q.sha)
    ensures NamesIndexed(y, index[q.sha := IndexRecord(q, batch, id)], t)
  {
    hide Names, Touched;
  }

  /** A stage that touches neither HEAD nor the index. */
  predicate Neutral(pc: Pc) { !pc.CommitNotes? && !pc.AmendHead? && !pc.PutIndex? }

  lemma NeutralKeeps(q: Request, r: Run)
    requires Inv(q, r) && Neutral(r.l.pc)
    ensures var s := Advance(q, r); s.repo.chain == r.repo.chain && s.index == r.index && s.l.batch == r.l.batch
  {
    InvJobId(q, r);
    hide Inv, Advance;
    AdvanceKeepsChain(q, r);
    AdvanceKeepsIndex(q, r);
    if r.l.pc.CleanTree? {
      CheckKeepsBatch(q, r);
    } else {
      AdvanceKeepsBase(q, r);
    }
  }

  lemma CheckKeepsBatch(q: Request, r: Run)
    requires ValidRepo(r.repo) && r.l.pc.CleanTree?
    ensures Advance(q, r).l.batch == r.l.batch
  {
    hide IsClean, IdsAscend;
  }

  lemma AdvanceKeepsRunNames(y: TitleCodec, q: Request, r: Run)
    requires Inv(q, r) && ValidRepo(r.repo) && RunNames(y, q, r)
    ensures ValidRepo(Advance(q, r).repo) && RunNames(y, q, Advance(q, r))
  {
    hide Inv, Advance, NamesIndexed, SoundBatch, KeepsNames, IndexRecord, IdsAscend;
    AdvanceKeepsInv(q, r);
    ValidOfInv(q, Advance(q, r));
    if Neutral(r.l.pc) {
      NeutralKeeps(q, r);
    } else if r.l.pc.PutIndex? {
      AdvanceIndexes(q, r);
      IndexedIsNamed(q, r);
      IndexingKeepsNames(y, r.index, HeadTree(r.repo), q, r.l.batch, r.l.commit);
    } else {
      AdvanceKeepsIndex(q, r);
      AdvanceKeepsBase(q, r);
      if r.l.pc.CommitNotes? {
        CommitKeepsNames(q, r);
      } else {
        AmendKeepsNames(q, r);
      }
      KeepingKeeps(y, r.index, HeadTree(r.repo), HeadTree(Advance(q, r).repo));
    }
  }

  /** What the outside may do to a run: draft sound notes, fetch commits that keep the names. */
  ghost predicate StepOk(y: TitleCodec, q: Request, r: Run, e: Event) {
    && (e.Drafted? ==> SoundBatch(q, e.batch))
    && (e.Fetched? && ValidRepo(r.repo) ==> KeepsNames(y, HeadTree(r.repo), HeadTree(FastForwarded(r.repo, e.trees))))
  }

  lemma StepKeepsRunNames(y: TitleCodec, q: Request, r: Run, e: Event)
    requires Inv(q, r) && ValidRepo(r.repo) && RunNames(y, q, r) && StepOk(y, q, r, e)
    ensures ValidRepo(Step(q, r, e).repo) && RunNames(y, q, Step(q, r, e))
  {
    hide Inv, Advance, Throw, Disturbed, NamesIndexed, SoundBatch, KeepsNames, IdsAscend, Gate, VaultReadable;
    if e.Go? {
      AdvanceKeepsRunNames(y, q, r);
    } else if e.Raise? {
      DisturbedKeeps(r, e.staged, e.work);
      ThrowOnlyMoves(Disturbed(r, e.staged, e.work), e.exn);
    } else if e.Fetched? && r.l.pc.PreSync? {
      KeepingKeeps(y, r.index, HeadTree(r.repo), HeadTree(FastForwarded(r.repo, e.trees)));
    }
  }

  // ----- one event ------------------------------------------------------------------

  ghost predicate VaultNames(y: TitleCodec, w: World, v: string)
    requires v in w.vaults
  {
    var s := w.vaults[v];
    && ValidRepo(s.repo) && NamesIndexed(y, s.index, HeadTree(s.repo))
    && (s.active.Some? ==> s.active.value.q.y == y && SoundBatch(s.active.value.q, s.active.value.l.batch))
  }

  ghost predicate NamesInv(y: TitleCodec, w: World) { forall v :: v in w.vaults ==> VaultNames(y, w, v) }

  /** One title syntax, sound drafts, and foreign commits that keep the names. */
  ghost predicate EventOk(y: TitleCodec, w: World, e: WorldEvent) {
    && (e.Begin? ==> e.q.y == y)
    && (e.UserCommit? && e.vault in w.vaults && ValidRepo(w.vaults[e.vault].repo) ==>
          KeepsNames(y, HeadTree(w.vaults[e.vault].repo), e.tree))
    && (e.Progress? && e.vault in w.vaults && w.vaults[e.vault].active.Some? ==>
          StepOk(y, w.vaults[e.vault].active.value.q, RunOf(w, e.vault), e.e))
  }

  ghost predicate EventsOk(y: TitleCodec, w: World, events: seq<WorldEvent>) {
    events == [] || (EventsOk(y, w, Init(events)) && EventOk(y, Later(w, Init(events)), Last(events)))
  }

  /** The run in a vault after an event of somebody else: as it was, gone, or just started. */
  ghost predicate RunStays(w: World, t: World, v: string, e: WorldEvent)
    requires v in w.vaults && v in t.vaults
  {
    || t.vaults[v].active.None?
    || t.vaults[v].active == w.vaults[v].active
    || (e.Begin? && t.vaults[v].active == Some(Active(e.q, Fresh(e.q))))
  }

  /** An event that is neither a step nor a foreign commit of the vault leaves its HEAD, its
    * index and the drafts of its run. */
  lemma HeadStays(w: World, e: WorldEvent, v: string)
    requires v in w.vaults && ValidRepo(w.vaults[v].repo)
    requires !(e.Progress? && e.vault == v) && !(e.UserCommit? && e.vault == v)
    ensures var t := Next(w, e);
      && v in t.vaults && t.vaults[v].repo.chain == w.vaults[v].repo.chain && t.vaults[v].index == w.vaults[v].index
      && ValidRepo(t.vaults[v].repo) && RunStays(w, t, v, e)
  {
    hide Step, IdsAscend, RestartedRecords;
  }

  lemma UserCommitSetsHead(w: World, v: string, tree: Tree)
    requires v in w.vaults && ValidRepo(w.vaults[v].repo)
    ensures var t := Next(w, UserCommit(v, tree));
      && v in t.vaults && t.vaults[v].index == w.vaults[v].index && t.vaults[v].active == w.vaults[v].active
      && ValidRepo(t.vaults[v].repo)
      && (HeadTree(t.vaults[v].repo) == tree || t.vaults[v] == w.vaults[v])
  {
    var r := w.vaults[v].repo;
    assert Init([tree]) == [] && FastForwarded(r, []) == r;
  }

  lemma NextKeepsNamesOf(y: TitleCodec, w: World, e: WorldEvent, v: string)
    requires WorldInv(w) && NamesInv(y, w) && EventOk(y, w, e) && v in w.vaults
    ensures v in Next(w, e).vaults && VaultNames(y, Next(w, e), v)
  {
    assert VaultNames(y, w, v);
    var t := Next(w, e);
    hide WorldInv, NamesInv, NamesIndexed, SoundBatch, KeepsNames, IdsAscend, Step;
    if e.Progress? && e.vault == v {
      if w.vaults[v].active.Some? {
        ActiveRunInv(w, v);
        StepKeepsRunNames(y, w.vaults[v].active.value.q, RunOf(w, v), e.e);
      }
    } else if e.UserCommit? && e.vault == v {
      hide Next;
      UserCommitSetsHead(w, v, e.tree);
      KeepingOr(y, w.vaults[v].index, HeadTree(w.vaults[v].repo), e.tree);
    } else {
      hide Next;
      HeadStays(w, e, v);
      if e.Begin? {
        NothingDrafted(e.q);
      }
    }
  }

  lemma KeepingOr(y: TitleCodec, index: Index, a: Tree, b: Tree)
    requires NamesIndexed(y, index, a)
    ensures KeepsNames(y, a, b) ==> NamesIndexed(y, index, b)
  {
    if KeepsNames(y, a, b) {
      KeepingKeeps(y, index, a, b);
    }
  }

  lemma NothingDrafted(q: Request)
    ensures SoundBatch(q, Fresh(q).batch)
  {
  }

  lemma ActiveRunInv(w: World, v: string)
    requires WorldInv(w) && v in w.vaults && w.vaults[v].active.Some?
    ensures Inv(w.vaults[v].active.value.q, RunOf(w, v))
  {
    assert VaultInv(w, v);
  }

  lemma {:induction false} LaterKeepsNames(y: TitleCodec, w: World, events: seq<WorldEvent>)
    requires WorldInv(w) && NamesInv(y, w) && EventsOk(y, w, events)
    ensures NamesInv(y, Later(w, events))
  {
    hide WorldInv, Next, VaultNames, EventOk;
    if events == [] {
    } else {
      LaterKeepsNames(y, w, Init(events));
      AfterKeepsInv(w, Init(events));
      var before := Later(w, Init(events));
      forall v | v in Later(w, events).vaults
        ensures VaultNames(y, Later(w, events), v)
      {
        SameVaults(before, Last(events));
        NextKeepsNamesOf(y, before, Last(events), v);
      }
    }
  }

  lemma SameVaults(w: World, e: WorldEvent)
    ensures Next(w, e).vaults.Keys == w.vaults.Keys
  {
    hide Step, RestartOk, CrashedVault, FastForwarded, IdsAscend, RestartedRecords;
  }

  /** Over any history - jobs that fail after their commit, crashes and restarts included -
    * every note that an index record lists in HEAD names that record's source, as long as
    * drafts are sound and foreign commits keep the names. */
  lemma IndexedNotesNameTheirSource(y: TitleCodec, w: World, events: seq<WorldEvent>)
    requires FirstStart(w) && EventsOk(y, w, events)
    ensures var t := Later(w, events); forall v :: v in t.vaults ==> ValidRepo(t.vaults[v].repo)
    ensures var t := Later(w, events);
      forall v, sha, path :: v in t.vaults && sha in t.vaults[v].index && path in t.vaults[v].index[sha].touched ==>
        Names(y, HeadTree(t.vaults[v].repo), path, sha)
  {
    FirstStartInv(w);
    assert NamesInv(y, w);
    hide FirstStart, WorldInv, EventsOk, Later, Names, IdsAscend;
    LaterKeepsNames(y, w, events);
    forall v | v in Later(w, events).vaults
      ensures VaultNames(y, Later(w, events), v)
    {
    }
  }
}
