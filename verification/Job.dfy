/** One ingest job and the transitions it may make. */
module Job {
  import opened Prelude

  datatype JobState = Queued | Running | Succeeded | Failed

  predicate Settled(s: JobState) { s == Succeeded || s == Failed }

  /** The only permitted moves; succeeded and failed have none. */
  predicate Legal(from: JobState, to: JobState) {
    || (from == Queued && (to == Running || to == Failed))
    || (from == Running && (to == Succeeded || to == Failed))
  }

  /** Some path of permitted moves, possibly of length zero. */
  predicate Reaches(from: JobState, to: JobState) {
    from == to || from == Queued || (from == Running && to != Queued)
  }

  /** The closed form above is the reflexive transitive closure of `Legal`. */
  lemma ReachesIsClosure(from: JobState, to: JobState)
    ensures Reaches(from, to) <==>
      from == to || Legal(from, to) || exists mid :: Legal(from, mid) && Legal(mid, to)
  {
    if from == Queued && to == Succeeded {
      assert Legal(Queued, Running) && Legal(Running, Succeeded);
    }
  }

  datatype JobRecord = JobRecord(
    id: string, vault: string, state: JobState,
    sourceSha: Option<string>, commitSha: Option<nat>,
    notesCreated: seq<string>, notesUpdated: seq<string>,
    linkDowngrades: map<string, seq<string>>, dedupOf: Option<string>,
    failureStage: Option<string>, error: Option<string>,
    attempts: nat, attemptErrors: seq<string>)

  function NewJob(id: string, vault: string): JobRecord {
    JobRecord(id, vault, Queued, None, None, [], [], map[], None, None, None, 1, [])
  }

  /** A copy in the new state; an illegal move raises `ValueError`. */
  function TransitionedTo(job: JobRecord, to: JobState): Result<JobRecord, Exn> {
    if Legal(job.state, to) then Ok(job.(state := to)) else Err(Exn(Foreign, "illegal job transition"))
  }

  function FailedWith(job: JobRecord, stage: string, message: string): JobRecord {
    job.(failureStage := Some(stage), error := Some(message))
  }
}
