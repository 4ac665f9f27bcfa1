/**
 The durable job queue (ai-ops/src/ai_ops/job_queue.py) together with the two database
 steps of retention (retention.py) and of recovery (worker.py).

 One SQLite transaction is one atomic function from `Tables` to a result: a failure leaves the
 tables as they were.  Clock readings are parameters; where the program reads the clock for a check
 and again for the write, the two readings are two parameters.
 */
module JobQueue {
  import opened Wrappers

  const LEASE_SECONDS: real := 60.0
  const MAX_ATTEMPTS := 3
  const MAX_WAITING := 100
  const RETENTION_SECONDS: real := 604800.0

  // "job-" and 32 hexadecimal digits: fixed width, so text order is numeric order.
  type JobId = nat

  datatype State =
    Queued | Collecting | Analyzing | Completed | Partial | Failed | Cancelled | NeedsReview
  {
    predicate Active() { Collecting? || Analyzing? }
    predicate Waiting() { Queued? || Active() }
    predicate Published() { Completed? || Partial? }
  }

  datatype Reason =
    | Interrupted | CollectionError | AnalysisError | ConfigChanged | IntegrityError
    | OperatorStopped | OperatorCancelled

  datatype Payload = Payload(
    target: string, question: string, configHash: string,
    route: Option<string>, operation: Option<string>)

  // The canonical-JSON digests: injective, so kept as the structure that is hashed.
  datatype EpisodeKey =
    | ManualKey(requestId: string)
    | CiKey(repository: string, workflow: string, runId: nat, runAttempt: nat)
    | AlertKey(cluster: string, alertFingerprint: string, startsAt: string)

  datatype Fingerprint =
    | ManualPrint(payload: Payload, originalQuestion: string)
    | CiPrint(payload: Payload, key: EpisodeKey)
    | AlertPrint(payload: Payload)

  datatype Reference = Reference(incidentId: string, runId: string, bundleHash: string)

  datatype Job = Job(
    key: EpisodeKey, fingerprint: Fingerprint, payload: Payload, state: State,
    generation: nat, attempts: nat, leaseUntil: Option<real>, availableAt: real,
    createdAt: real, updatedAt: real, reason: Option<Reason>,
    snapshotHash: Option<string>, report: Option<Reference>)

  datatype AttemptKey = AttemptKey(job: JobId, generation: nat)

  datatype Attempt = Attempt(
    parent: Option<nat>, state: State, startedAt: real,
    finishedAt: Option<real>, reason: Option<Reason>)

  datatype Purge = Purge(createdAt: real, deadline: real, completedAt: Option<real>)

  datatype Tables = Tables(
    episodes: map<EpisodeKey, JobId>, jobs: map<JobId, Job>,
    attempts: map<AttemptKey, Attempt>, purges: map<JobId, Purge>)

  datatype Error =
    | BadClock | PurgedKey | FingerprintConflict | QueueFull | ConstraintViolated
    | LeaseLost | StillLeased | NotFound | NotPublishable | NotPurgeable

  const EMPTY := Tables(map[], map[], map[], map[])

  /** The UNIQUE constraint on jobs.episode_key. */
  ghost predicate KeysUnique(jobs: map<JobId, Job>) {
    forall i, j {:trigger jobs[i].key, jobs[j].key} :: i in jobs && j in jobs && jobs[i].key == jobs[j].key ==> i == j
  }

  function JobWithKey(jobs: map<JobId, Job>, key: EpisodeKey): (r: Option<JobId>)
    requires KeysUnique(jobs)
    ensures r.Some? ==> r.value in jobs && jobs[r.value].key == key
    ensures r.None? ==> forall j :: j in jobs ==> jobs[j].key != key
  {
    if exists j :: j in jobs && jobs[j].key == key
    then var j :| j in jobs && jobs[j].key == key; Some(j)
    else None
  }

  function WaitingJobs(jobs: map<JobId, Job>): set<JobId> {
    set j | j in jobs && jobs[j].state.Waiting()
  }

  function ActiveJobs(jobs: map<JobId, Job>): set<JobId> {
    set j | j in jobs && jobs[j].state.Active()
  }

  function ReadyJobs(jobs: map<JobId, Job>, now: real): set<JobId> {
    set j | j in jobs && jobs[j].state.Queued? && jobs[j].availableAt <= now
  }

  /** ORDER BY created_at, job_id. */
  predicate Before(jobs: map<JobId, Job>, i: JobId, j: JobId)
    requires i in jobs && j in jobs
  {
    jobs[i].createdAt < jobs[j].createdAt || (jobs[i].createdAt == jobs[j].createdAt && i < j)
  }

  lemma {:induction false} OldestExists(jobs: map<JobId, Job>, ready: set<JobId>)
    requires ready != {} && ready <= jobs.Keys
    ensures exists j :: j in ready && forall i | i in ready :: !Before(jobs, i, j)
    decreases |ready|
  {
    var j :| j in ready;
    var rest := ready - {j};
    if rest == {} {
      assert ready == {j};
    } else {
      OldestExists(jobs, rest);
      var k :| k in rest && forall i | i in rest :: !Before(jobs, i, k);
      var least := if Before(jobs, j, k) then j else k;
      assert forall i | i in ready :: i == j || i in rest;
      assert least in ready && forall i | i in ready :: !Before(jobs, i, least);
    }
  }

  /** ORDER BY ... LIMIT 1: the one job that no other ready job precedes. */
  function Oldest(jobs: map<JobId, Job>, ready: set<JobId>): (oldest: JobId)
    requires ready != {} && ready <= jobs.Keys
    ensures oldest in ready && forall i | i in ready && i != oldest :: Before(jobs, oldest, i)
  {
    OldestExists(jobs, ready);
    var j :| j in ready && forall i | i in ready :: !Before(jobs, i, j);
    j
  }

  /** min(5 * 2**(a - 1), 20) seconds: doubling from 2.5, capped. */
  function Backoff(a: nat): (r: real)
    ensures 2.5 <= r <= 20.0
  {
    if a == 0 then 2.5
    else
      var doubled := 2.0 * Backoff(a - 1);
      if doubled < 20.0 then doubled else 20.0
  }

  // ---------------------------------------------------------------- the transactions

  function Submit(t: Tables, key: EpisodeKey, fingerprint: Fingerprint, payload: Payload,
                  now: real, uuid: JobId): (r: Result<(Tables, JobId, bool), Error>)
    requires KeysUnique(t.jobs)
  {
    if key in t.episodes && t.episodes[key] in t.purges then Failure(PurgedKey)
    else
      match JobWithKey(t.jobs, key)
      case Some(j) =>
        if t.jobs[j].fingerprint != fingerprint then Failure(FingerprintConflict)
        else Success((t, j, true))
      case None =>
        if |WaitingJobs(t.jobs)| >= MAX_WAITING then Failure(QueueFull)
        else if key in t.episodes || uuid in t.episodes.Values || uuid in t.jobs then Failure(ConstraintViolated)
        else
          var job := Job(key, fingerprint, payload, Queued, 0, 0, None, now, now, now, None, None, None);
          Success((t.(episodes := t.episodes[key := uuid], jobs := t.jobs[uuid := job]), uuid, false))
  }

  function Claim(t: Tables, now: real): (r: Result<(Tables, Option<JobId>), Error>) {
    if ActiveJobs(t.jobs) != {} then Success((t, None))
    else if now < 0.0 then Failure(BadClock)
    else
      var ready := ReadyJobs(t.jobs, now);
      if ready == {} then Success((t, None))
      else
        var j := Oldest(t.jobs, ready);
        var job := t.jobs[j];
        var generation := job.generation + 1;
        if AttemptKey(j, generation) in t.attempts then Failure(ConstraintViolated)
        else
          var claimed := job.(state := Collecting, generation := generation, attempts := job.attempts + 1,
                              leaseUntil := Some(now + LEASE_SECONDS), updatedAt := now, reason := None);
          var attempt := Attempt(if generation == 1 then None else Some(generation - 1), Collecting, now, None, None);
          Success((t.(jobs := t.jobs[j := claimed],
                      attempts := t.attempts[AttemptKey(j, generation) := attempt]), Some(j)))
  }

  predicate Owns(t: Tables, j: JobId, g: nat) {
    j in t.jobs && t.jobs[j].generation == g && t.jobs[j].state.Active()
  }

  /** The lease is still running at the reading. */
  predicate Leased(t: Tables, j: JobId, check: real)
    requires j in t.jobs
  {
    t.jobs[j].leaseUntil.Some? && t.jobs[j].leaseUntil.value > check
  }

  function AssertOwner(t: Tables, j: JobId, g: nat, check: real): (r: Option<Error>) {
    if !Owns(t, j, g) then Some(LeaseLost)
    else if check < 0.0 then Some(BadClock)
    else if !Leased(t, j, check) then Some(LeaseLost)
    else None
  }

  function Heartbeat(t: Tables, j: JobId, g: nat, check: real, now: real): (r: Result<Tables, Error>) {
    var refused := AssertOwner(t, j, g, check);
    if refused.Some? then Failure(refused.value)
    else if now < 0.0 then Failure(BadClock)
    else Success(t.(jobs := t.jobs[j := t.jobs[j].(leaseUntil := Some(now + LEASE_SECONDS), updatedAt := now)]))
  }

  /** UPDATE attempts ... WHERE job_id AND generation: touches the row only if it exists. */
  function SetAttempt(attempts: map<AttemptKey, Attempt>, k: AttemptKey,
                      state: State, finishedAt: Option<real>, reason: Option<Reason>)
    : map<AttemptKey, Attempt>
  {
    if k in attempts
    then attempts[k := attempts[k].(state := state, finishedAt := finishedAt, reason := reason)]
    else attempts
  }

  function Checkpoint(t: Tables, j: JobId, g: nat, digest: string, check: real, now: real)
    : (r: Result<Tables, Error>)
  {
    var refused := AssertOwner(t, j, g, check);
    if refused.Some? then Failure(refused.value)
    else if now < 0.0 then Failure(BadClock)
    else
      var k := AttemptKey(j, g);
      Success(t.(
        jobs := t.jobs[j := t.jobs[j].(state := Analyzing, snapshotHash := Some(digest), updatedAt := now)],
        attempts := if k in t.attempts then t.attempts[k := t.attempts[k].(state := Analyzing)] else t.attempts))
  }

  /** `finish` itself checks no ownership; both callers do so in the same transaction. */
  function Finish(t: Tables, j: JobId, g: nat, status: State, report: Reference, now: real)
    : (r: Result<Tables, Error>)
    requires j in t.jobs
  {
    if !status.Published() then Failure(NotPublishable)
    else if now < 0.0 then Failure(BadClock)
    else
      var k := AttemptKey(j, g);
      Success(t.(
        jobs := t.jobs[j := t.jobs[j].(state := status, leaseUntil := None, updatedAt := now,
                                       report := Some(report), reason := None)],
        attempts := if k in t.attempts
                    then t.attempts[k := t.attempts[k].(state := status, finishedAt := Some(now))]
                    else t.attempts))
  }

  function FinishOwned(t: Tables, j: JobId, g: nat, status: State, report: Reference, check: real, now: real)
    : (r: Result<Tables, Error>)
  {
    var refused := AssertOwner(t, j, g, check);
    if refused.Some? then Failure(refused.value) else Finish(t, j, g, status, report, now)
  }

  /** Recovery of a report that was saved before the queue could commit it. */
  function FinishRecovered(t: Tables, j: JobId, g: nat, status: State, report: Reference, check: real, now: real)
    : (r: Result<Tables, Error>)
  {
    if j !in t.jobs then Failure(NotFound)
    else if !Owns(t, j, g) then Success(t)
    else if check < 0.0 then Failure(BadClock)
    else if Leased(t, j, check) then Failure(LeaseLost)
    else Finish(t, j, g, status, report, now)
  }

  function Fail(t: Tables, j: JobId, g: nat, reason: Reason, recovery: bool, review: bool,
                check: real, now: real): (r: Result<Tables, Error>)
    requires reason != OperatorCancelled
  {
    if j !in t.jobs then Failure(NotFound)
    else if !Owns(t, j, g) then Success(t)
    else if check < 0.0 || now < 0.0 then Failure(BadClock)
    else if recovery == Leased(t, j, check) then Failure(LeaseLost)
    else
      var job := t.jobs[j];
      var state := if review then NeedsReview else if job.attempts < MAX_ATTEMPTS then Queued else State.Failed;
      Success(t.(
        jobs := t.jobs[j := job.(state := state, reason := Some(reason), leaseUntil := None,
                                 availableAt := now + Backoff(job.attempts),
                                 updatedAt := now)],
        attempts := SetAttempt(t.attempts, AttemptKey(j, g), State.Failed, Some(now), Some(reason))))
  }

  function Cancel(t: Tables, j: JobId, now: real): (r: Result<Tables, Error>) {
    if j !in t.jobs then Failure(NotFound)
    else if !t.jobs[j].state.Waiting() then Success(t)
    else if now < 0.0 then Failure(BadClock)
    else
      Success(t.(
        jobs := t.jobs[j := t.jobs[j].(state := Cancelled, reason := Some(OperatorCancelled),
                                       leaseUntil := None, updatedAt := now)],
        attempts := SetAttempt(t.attempts, AttemptKey(j, t.jobs[j].generation),
                               Cancelled, Some(now), Some(OperatorCancelled))))
  }

  /** Retention, first transaction: commit to the deletion of a terminal job older than seven days. */
  function PlanPurge(t: Tables, j: JobId, now: real): (r: Result<Tables, Error>) {
    if j !in t.jobs || j in t.purges || t.jobs[j].state.Waiting() || t.jobs[j].leaseUntil.Some?
       || now < t.jobs[j].createdAt + RETENTION_SECONDS
    then Failure(NotPurgeable)
    else Success(t.(purges := t.purges[j := Purge(t.jobs[j].createdAt, t.jobs[j].createdAt + RETENTION_SECONDS, None)]))
  }

  /** Retention, last transaction: the rows go, the purge record and the episode key stay. */
  function DeletePurged(t: Tables, j: JobId, now: real): (r: Result<Tables, Error>) {
    if j !in t.jobs || j !in t.purges then Failure(NotPurgeable)
    else if now < 0.0 then Failure(BadClock)
    else Success(t.(
      jobs := t.jobs - {j},
      attempts := map k | k in t.attempts && k.job != j :: t.attempts[k],
      purges := t.purges[j := t.purges[j].(completedAt := Some(now))]))
  }
}
