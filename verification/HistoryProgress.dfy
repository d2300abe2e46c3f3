/** What can still happen in a history: when a text, or a job, can be committed again. */
module HistoryProgress {
  import opened Prelude
  import opened Job
  import opened Git
  import opened Ingest
  import opened IngestSafety
  import opened IngestTheorems
  import opened IngestProgress
  import opened Histories
  import opened HistoryJobs
  import ServiceRuns
  import JobStore

  // ----- a run inside a history -----------------------------------------------------

  function Session(v: string, es: seq<Event>): seq<WorldEvent> {
    if es == [] then [] else Session(v, Init(es)) + [Progress(v, Last(es))]
  }

  /** The job starts and takes these steps, with nothing else in between. */
  function RunEvents(q: Request, es: seq<Event>): seq<WorldEvent> { [Begin(q)] + Session(q.vault, es) }

  ghost function StartIn(w: World, q: Request): Run
    requires q.vault in w.vaults
  {
    Start(q, w.vaults[q.vault].repo, w.records, w.vaults[q.vault].index)
  }

  lemma {:induction false} SessionRuns(w: World, q: Request, es: seq<Event>)
    requires MayBegin(w, q)
    ensures var t := Later(w, RunEvents(q, es));
      && q.vault in t.vaults && t.vaults[q.vault].active.Some? && t.vaults[q.vault].active.value.q == q
      && RunOf(t, q.vault) == Exec(q, StartIn(w, q), es)
  {
    hide Step;
    if es == [] {
      assert RunEvents(q, es) == [Begin(q)] && Init([Begin(q)]) == [];
      assert Later(w, [Begin(q)]) == Next(w, Begin(q));
    } else {
      SessionRuns(w, q, Init(es));
      var e := Progress(q.vault, Last(es));
      assert RunEvents(q, es) == RunEvents(q, Init(es)) + [e];
      LaterSnoc(w, RunEvents(q, Init(es)), e);
    }
  }

  lemma LaterSnoc(w: World, events: seq<WorldEvent>, e: WorldEvent)
    ensures Later(w, events + [e]) == Next(Later(w, events), e)
  {
    assert Init(events + [e]) == events;
  }

  // ----- when a text can be committed again -------------------------------------------

  /** The vault is idle and clean, its notes parse, and there is a gated batch that can be
    * written. */
  ghost predicate Prepared(w: World, q: Request, trees: seq<Tree>, batch: seq<Draft>) {
    && WorldInv(w) && MayBegin(w, q) && ValidRepo(w.vaults[q.vault].repo) && IsClean(w.vaults[q.vault].repo)
    && var base := BaseOf(q, w.vaults[q.vault].repo, trees);
       VaultReadable(q.y, base) && Gate(q, batch, ExistingPaths(base)) && Writable(q, base, batch)
  }

  lemma PreparedStarts(w: World, q: Request, trees: seq<Tree>, batch: seq<Draft>)
    requires Prepared(w, q, trees, batch)
    ensures Startable(q, w.vaults[q.vault].repo, w.records, w.vaults[q.vault].index)
  {
    assert VaultInv(w, q.vault);
    hide CommitsAreOwned, Inv, IndexOn;
  }

  lemma CountGrows(a: seq<Commit>, base: seq<Commit>, b: seq<Commit>, sha: string)
    requires a <= base && (forall i :: |a| <= i < |base| ==> base[i].origin.None?)
    requires base <= b && |b| == |base| + 1 && Last(b).origin.Some? && Last(b).origin.value.sha == sha
    ensures Count(b, sha) == Count(a, sha) + 1
  {
    assert Init(b) == base;
    CountOfExtension(a, base, sha);
  }

  lemma SecondCommit(a: seq<Commit>, b: seq<Commit>, id: string)
    requires a <= b && |b| > |a| && HasCommit(a, id) && Made(Last(b), id)
    ensures !OnePerJob(b)
  {
    var i :| 0 <= i < |a| && Made(a[i], id);
    assert b[i] == a[i] && Made(b[|b| - 1], b[i].origin.value.job);
  }

  /** A fresh text of a job that may run is committed by some run of it. */
  lemma FreshTextCommits(w: World, q: Request, trees: seq<Tree>, batch: seq<Draft>) returns (es: seq<Event>)
    requires Prepared(w, q, trees, batch) && MayRun(q, w.records) && q.sha !in w.vaults[q.vault].index
    ensures var t := Later(w, RunEvents(q, es)); var chain := w.vaults[q.vault].repo.chain;
      && q.vault in t.vaults && Count(t.vaults[q.vault].repo.chain, q.sha) == Count(chain, q.sha) + 1
      && (HasCommit(chain, q.job) ==> !OnePerJob(t.vaults[q.vault].repo.chain))
  {
    var s := w.vaults[q.vault];
    PreparedStarts(w, q, trees, batch);
    es := NothingRaisedMeansSuccess(q, s.repo, w.records, s.index, trees, batch, map[]);
    SessionRuns(w, q, es);
    hide Inv, Exec, Step, Start, Prepared, WorldInv, OnePerJob, HasCommit, Count,
      FinalTree, Gate, Later, RunEvents, IdsAscend, IsClean;
    var r := Exec(q, StartIn(w, q), es);
    SuccessIsOneCommit(q, s.repo, w.records, s.index, es);
    StartKeepsRepo(w, q);
    CountGrows(s.repo.chain, r.l.base, r.repo.chain, q.sha);
    if HasCommit(s.repo.chain, q.job) {
      assert Made(Last(r.repo.chain), q.job);
      SecondCommit(s.repo.chain, r.repo.chain, q.job);
    }
  }

  lemma StartKeepsRepo(w: World, q: Request)
    requires q.vault in w.vaults
    ensures StartIn(w, q).repo == w.vaults[q.vault].repo
  {
  }

  /** In such a vault, with a job id that may run, some continuation of the history commits the
    * text once more if and only if it is not indexed. */
  lemma CommittedAgainExactly(w: World, q: Request, trees: seq<Tree>, batch: seq<Draft>)
    requires Prepared(w, q, trees, batch) && MayRun(q, w.records)
    ensures (exists events :: CountRose(w, events, q.vault, q.sha)) <==> q.sha !in w.vaults[q.vault].index
  {
    hide WorldInv, Later, Count, RunEvents;
    var v := q.vault;
    if q.sha in w.vaults[v].index {
      forall events
        ensures !CountRose(w, events, v, q.sha)
      {
        IndexedTextIsNeverCommittedAgain(w, events, v, q.sha);
      }
    } else {
      var es := FreshTextCommits(w, q, trees, batch);
      assert CountRose(w, RunEvents(q, es), v, q.sha);
    }
  }

  /** A fresh text is ingested by some run of a job if and only if the job has no record or a
    * QUEUED one: after a run that got further, no attempt of the job can ingest. */
  lemma IngestsExactlyWhenQueued(w: World, q: Request, trees: seq<Tree>, batch: seq<Draft>)
    requires Prepared(w, q, trees, batch) && q.sha !in w.vaults[q.vault].index
    ensures (exists es :: CountRose(w, RunEvents(q, es), q.vault, q.sha)) <==> MayRun(q, w.records)
  {
    hide Prepared, WorldInv, Later, Count, RunEvents, Exec, Start;
    PreparedBegins(w, q, trees, batch);
    if MayRun(q, w.records) {
      var es := FreshTextCommits(w, q, trees, batch);
      assert CountRose(w, RunEvents(q, es), q.vault, q.sha);
    } else {
      forall es
        ensures !CountRose(w, RunEvents(q, es), q.vault, q.sha)
      {
        SessionRuns(w, q, es);
        ServiceRuns.SecondRunIsRefused(q, w.vaults[q.vault].repo, w.records, w.vaults[q.vault].index, es);
      }
    }
  }

  ghost predicate CountRose(w: World, events: seq<WorldEvent>, v: string, sha: string)
    requires v in w.vaults
  {
    v in Later(w, events).vaults
    && Count(Later(w, events).vaults[v].repo.chain, sha) > Count(w.vaults[v].repo.chain, sha)
  }

  // ----- when a job can commit again --------------------------------------------------

  ghost predicate CommitsTwice(w: World, q: Request, es: seq<Event>) {
    q.vault in Later(w, RunEvents(q, es)).vaults && !OnePerJob(Later(w, RunEvents(q, es)).vaults[q.vault].repo.chain)
  }

  /** A job that has a commit makes another, of a fresh text, in some run of it if and only if
    * its record is gone: whatever state a record is in by then, it refuses the run. */
  lemma JobCommitsAgainExactly(w: World, q: Request, trees: seq<Tree>, batch: seq<Draft>)
    requires Prepared(w, q, trees, batch) && OneInv(w) && q.sha !in w.vaults[q.vault].index
    requires HasCommit(w.vaults[q.vault].repo.chain, q.job)
    ensures (exists es :: CommitsTwice(w, q, es)) <==> q.job !in w.records
  {
    assert JobsOk(w, q.vault);
    hide Prepared, OneInv, Later, Count, RunEvents, Exec, Start, OnePerJob, CommittersRan, HasCommit;
    if q.job in w.records {
      OwnCommitter(w.vaults[q.vault].repo.chain, w.records, q.job);
      forall es
        ensures !CommitsTwice(w, q, es)
      {
        PreparedBegins(w, q, trees, batch);
        SessionRuns(w, q, es);
        ServiceRuns.SecondRunIsRefused(q, w.vaults[q.vault].repo, w.records, w.vaults[q.vault].index, es);
      }
    } else {
      var es := FreshTextCommits(w, q, trees, batch);
      assert CommitsTwice(w, q, es);
    }
  }

  lemma PreparedBegins(w: World, q: Request, trees: seq<Tree>, batch: seq<Draft>)
    requires Prepared(w, q, trees, batch)
    ensures MayBegin(w, q)
  {
  }
}
