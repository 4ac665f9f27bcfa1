/**
 What every interleaving of queue transactions keeps: the shape of the tables, the fencing of stale
 attempts, the finality of terminal jobs and of past attempts, and a bound on retries.
 */
module JobQueueLaws {
  import opened Wrappers
  import opened JobQueue
  import Sets

  // ---------------------------------------------------------------- the invariant

  ghost predicate Row(t: Tables, j: JobId, g: nat) { AttemptKey(j, g) in t.attempts }

  ghost function ParentOf(g: nat): Option<nat> { if g <= 1 then None else Some((g - 1) as nat) }

  /** An attempt that is not the last one failed, and its successor waited out the backoff. */
  ghost predicate Superseded(t: Tables, j: JobId, g: nat)
    requires Row(t, j, g) && Row(t, j, g + 1)
  {
    var a := t.attempts[AttemptKey(j, g)];
    && a.state.Failed? && a.finishedAt.Some?
    && t.attempts[AttemptKey(j, g + 1)].startedAt >= a.finishedAt.value + Backoff(g)
  }

  /** The attempts of a job are exactly generations 1..generation, each the child of the one before. */
  ghost predicate AttemptRows(t: Tables, j: JobId)
    requires j in t.jobs
  {
    var last := t.jobs[j].generation;
    && (forall g: nat :: Row(t, j, g) <==> 1 <= g <= last)
    && (forall g: nat :: Row(t, j, g) ==> t.attempts[AttemptKey(j, g)].parent == ParentOf(g))
    && (forall g: nat {:trigger Superseded(t, j, g)} :: 1 <= g < last ==> Superseded(t, j, g))
  }

  /** How the job row and the row of its current attempt agree. */
  ghost predicate CurrentRow(job: Job, a: Attempt) {
    match job.state
    case Queued => a.state.Failed? && a.finishedAt.Some? && job.availableAt
      == a.finishedAt.value + Backoff(job.generation)
    case Collecting => a.state.Collecting? && a.finishedAt.None?
    case Analyzing => a.state.Analyzing? && a.finishedAt.None?
    case Failed => a.state.Failed?
    case NeedsReview => a.state.Failed?
    case Completed => a.state.Completed?
    case Partial => a.state.Partial?
    case Cancelled => a.state.Cancelled?
  }

  ghost predicate JobRow(t: Tables, j: JobId)
    requires j in t.jobs
  {
    var job := t.jobs[j];
    && job.generation == job.attempts <= MAX_ATTEMPTS
    && (job.leaseUntil.Some? <==> job.state.Active())
    && (job.state.Queued? ==> job.attempts < MAX_ATTEMPTS)
    && (!job.state.Queued? && !job.state.Cancelled? ==> job.generation >= 1)
    && (job.report.Some? <==> job.state.Published())
    && job.key in t.episodes && t.episodes[job.key] == j
    && AttemptRows(t, j)
    && (Row(t, j, job.generation) ==> CurrentRow(job, t.attempts[AttemptKey(j, job.generation)]))
  }

  /** Jobs and episode keys are in bijection, but for the keys kept as tombstones of deleted jobs. */
  ghost predicate Episodes(t: Tables) {
    && (forall k :: k in t.episodes ==>
          var j := t.episodes[k];
          if j in t.jobs then t.jobs[j].key == k else j in t.purges && t.purges[j].completedAt.Some?)
    && (forall k, l :: k in t.episodes && l in t.episodes && t.episodes[k] == t.episodes[l] ==> k == l)
    && (forall p :: p in t.purges ==>
          && p in t.episodes.Values
          && (p in t.jobs <==> t.purges[p].completedAt.None?)
          && (p in t.jobs ==> !t.jobs[p].state.Waiting()))
  }

  ghost predicate Inv(t: Tables) {
    && (forall j {:trigger JobRow(t, j)} :: j in t.jobs ==> JobRow(t, j))
    && (forall k :: k in t.attempts ==> k.job in t.jobs)
    && Episodes(t)
    && (forall i, j :: i in ActiveJobs(t.jobs) && j in ActiveJobs(t.jobs) ==> i == j)
    && |WaitingJobs(t.jobs)| <= MAX_WAITING
  }

  lemma InvHasUniqueKeys(t: Tables)
    requires Inv(t)
    ensures KeysUnique(t.jobs)
  {
    forall i, j | i in t.jobs && j in t.jobs && t.jobs[i].key == t.jobs[j].key ensures i == j {
      assert JobRow(t, i) && JobRow(t, j);
    }
  }

  lemma EmptyInv()
    ensures Inv(EMPTY)
  {
    assert WaitingJobs(EMPTY.jobs) == {};
  }

  // ---------------------------------------------------------------- each transaction keeps it

  /** A job row is judged by itself, its episode key and its own attempt rows. */
  lemma SameRow(t: Tables, u: Tables, j: JobId)
    requires j in t.jobs && JobRow(t, j)
    requires j in u.jobs && u.jobs[j] == t.jobs[j]
    requires t.jobs[j].key in u.episodes && u.episodes[t.jobs[j].key] == j
    requires forall g: nat :: Row(u, j, g) <==> Row(t, j, g)
    requires forall g: nat :: Row(t, j, g) && Row(u, j, g) ==>
             u.attempts[AttemptKey(j, g)] == t.attempts[AttemptKey(j, g)]
    ensures JobRow(u, j)
  {
    forall g: nat | 1 <= g < t.jobs[j].generation ensures Superseded(u, j, g) {
      assert Superseded(t, j, g);
    }
  }

  lemma SubmitKeepsInv(t: Tables, key: EpisodeKey, fingerprint: Fingerprint, payload: Payload, now: real, uuid: JobId)
    requires Inv(t) && KeysUnique(t.jobs)
    ensures var r := Submit(t, key, fingerprint, payload, now, uuid); r.Success? ==> Inv(r.value.0)
  {
    var r := Submit(t, key, fingerprint, payload, now, uuid);
    if r.Success? && !r.value.2 {
      InsertKeepsInv(t, key, uuid, r.value.0.jobs[uuid]);
    }
  }

  lemma InsertKeepsInv(t: Tables, key: EpisodeKey, uuid: JobId, job: Job)
    requires Inv(t) && |WaitingJobs(t.jobs)| < MAX_WAITING
    requires key !in t.episodes && uuid !in t.episodes.Values && uuid !in t.jobs
    requires job.key == key && job.state.Queued? && job.generation == job.attempts == 0
    requires job.leaseUntil.None? && job.report.None?
    ensures Inv(t.(episodes := t.episodes[key := uuid], jobs := t.jobs[uuid := job]))
  {
    InsertedSets(t.jobs, uuid, job);
    InsertedRows(t, key, uuid, job);
    SubmittedEpisodes(t, key, uuid, job);
  }

  lemma InsertedSets(jobs: map<JobId, Job>, uuid: JobId, job: Job)
    requires uuid !in jobs && job.state.Queued?
    ensures WaitingJobs(jobs[uuid := job]) == WaitingJobs(jobs) + {uuid}
            && ActiveJobs(jobs[uuid := job]) == ActiveJobs(jobs)
  {
  }

  lemma InsertedRows(t: Tables, key: EpisodeKey, uuid: JobId, job: Job)
    requires Inv(t) && uuid !in t.jobs && key !in t.episodes
    requires job.key == key && job.state.Queued? && job.generation == job.attempts == 0
    requires job.leaseUntil.None? && job.report.None?
    ensures var u := t.(episodes := t.episodes[key := uuid], jobs := t.jobs[uuid := job]);
            forall j {:trigger JobRow(u, j)} :: j in u.jobs ==> JobRow(u, j)
  {
    var u := t.(episodes := t.episodes[key := uuid], jobs := t.jobs[uuid := job]);
    InsertedRow(t, key, uuid, job);
    forall j | j in u.jobs ensures JobRow(u, j) {
      if j != uuid { OtherRowKept(t, u, j); }
    }
  }

  /** A new job has no attempts, and its key's episode is it. */
  lemma InsertedRow(t: Tables, key: EpisodeKey, uuid: JobId, job: Job)
    requires Inv(t) && uuid !in t.jobs && key !in t.episodes
    requires job.key == key && job.state.Queued? && job.generation == job.attempts == 0
    requires job.leaseUntil.None? && job.report.None?
    ensures JobRow(t.(episodes := t.episodes[key := uuid], jobs := t.jobs[uuid := job]), uuid)
  {
    var u := t.(episodes := t.episodes[key := uuid], jobs := t.jobs[uuid := job]);
    assert forall g: nat :: !Row(u, uuid, g);
  }

  /** A transaction that leaves job j, its key and its attempt rows alone keeps its row. */
  lemma OtherRowKept(t: Tables, u: Tables, j: JobId)
    requires Inv(t) && j in t.jobs && j in u.jobs && u.jobs[j] == t.jobs[j]
    requires forall k :: k in t.episodes ==> k in u.episodes && u.episodes[k] == t.episodes[k]
    requires forall k: AttemptKey :: k.job == j ==> (k in u.attempts <==> k in t.attempts)
    requires forall k: AttemptKey :: k.job == j && k in t.attempts && k in u.attempts ==> u.attempts[k] == t.attempts[k]
    ensures JobRow(u, j)
  {
    assert JobRow(t, j);
    assert forall g: nat :: Row(u, j, g) <==> Row(t, j, g);
    SameRow(t, u, j);
  }

  lemma SubmittedEpisodes(t: Tables, key: EpisodeKey, uuid: JobId, job: Job)
    requires Episodes(t) && key !in t.episodes && uuid !in t.episodes.Values && uuid !in t.jobs && job.key == key
    ensures Episodes(t.(episodes := t.episodes[key := uuid], jobs := t.jobs[uuid := job]))
  {
    var u := t.(episodes := t.episodes[key := uuid], jobs := t.jobs[uuid := job]);
    forall p | p in u.purges ensures p in u.episodes.Values && p != uuid {
      PurgedEpisode(t, key, uuid, p);
    }
  }

  lemma PurgedEpisode(t: Tables, key: EpisodeKey, uuid: JobId, p: JobId)
    requires key !in t.episodes && uuid !in t.episodes.Values && p in t.episodes.Values
    ensures p in t.episodes[key := uuid].Values && p != uuid
  {
    var k :| k in t.episodes && t.episodes[k] == p;
    assert t.episodes[key := uuid][k] == p;
  }

  /** A transaction that rewrites job j, and at most the row of its current attempt, keeps the rest. */
  ghost predicate Rewrites(t: Tables, j: JobId, u: Tables) {
    && j in t.jobs && j in u.jobs && j !in t.purges && t.jobs[j].state.Waiting()
    && u.episodes == t.episodes && u.purges == t.purges && u.jobs == t.jobs[j := u.jobs[j]]
    && (forall k :: k in u.attempts <==> k in t.attempts)
    && (forall k :: k in t.attempts && (k.job != j || k.generation < t.jobs[j].generation) ==>
          u.attempts[k] == t.attempts[k])
    && u.jobs[j].key == t.jobs[j].key
    && (u.jobs[j].state.Active() ==> t.jobs[j].state.Active())
  }

  lemma RewriteKeepsInv(t: Tables, j: JobId, u: Tables)
    requires Inv(t) && Rewrites(t, j, u) && JobRow(u, j)
    ensures Inv(u)
  {
    forall i | i in u.jobs ensures JobRow(u, i) {
      if i != j { OtherRowKept(t, u, i); }
    }
    Sets.SubsetSize(WaitingJobs(u.jobs), WaitingJobs(t.jobs));
    assert ActiveJobs(u.jobs) <= ActiveJobs(t.jobs);
  }

  /** The row of job j after such a rewrite, when the current attempt's row agrees with it. */
  lemma RewrittenRow(t: Tables, j: JobId, u: Tables)
    requires j in t.jobs && JobRow(t, j) && Rewrites(t, j, u)
    requires var job := u.jobs[j];
      && job.generation == job.attempts == t.jobs[j].generation
      && (job.leaseUntil.Some? <==> job.state.Active())
      && (job.state.Queued? ==> job.attempts < MAX_ATTEMPTS)
      && (!job.state.Queued? && !job.state.Cancelled? ==> job.generation >= 1)
      && (job.report.Some? <==> job.state.Published())
      && (Row(t, j, job.generation) && Row(u, j, job.generation) ==>
            && u.attempts[AttemptKey(j, job.generation)].parent == t.attempts[AttemptKey(j, job.generation)].parent
            && u.attempts[AttemptKey(j, job.generation)].startedAt
               == t.attempts[AttemptKey(j, job.generation)].startedAt
            && CurrentRow(job, u.attempts[AttemptKey(j, job.generation)]))
    ensures JobRow(u, j)
  {
    forall g: nat | Row(u, j, g) ensures u.attempts[AttemptKey(j, g)].parent == ParentOf(g) {
      assert Row(t, j, g);
    }
    assert forall g: nat :: Row(u, j, g) <==> Row(t, j, g);
    forall g: nat | 1 <= g < u.jobs[j].generation ensures Superseded(u, j, g) {
      assert Row(u, j, g) && Row(u, j, g + 1);
      assert Superseded(t, j, g);
    }
  }

  lemma RewriteByAttempt(t: Tables, j: JobId, u: Tables)
    requires Inv(t) && Rewrites(t, j, u)
    requires var job := u.jobs[j];
      && job.generation == job.attempts == t.jobs[j].generation
      && (job.leaseUntil.Some? <==> job.state.Active())
      && (job.state.Queued? ==> job.attempts < MAX_ATTEMPTS)
      && (!job.state.Queued? && !job.state.Cancelled? ==> job.generation >= 1)
      && (job.report.Some? <==> job.state.Published())
      && (Row(t, j, job.generation) && Row(u, j, job.generation) ==>
            && u.attempts[AttemptKey(j, job.generation)].parent == t.attempts[AttemptKey(j, job.generation)].parent
            && u.attempts[AttemptKey(j, job.generation)].startedAt
               == t.attempts[AttemptKey(j, job.generation)].startedAt
            && CurrentRow(job, u.attempts[AttemptKey(j, job.generation)]))
    ensures Inv(u)
  {
    assert JobRow(t, j);
    RewrittenRow(t, j, u);
    RewriteKeepsInv(t, j, u);
  }

  lemma HeartbeatKeepsInv(t: Tables, j: JobId, g: nat, check: real, now: real)
    requires Inv(t)
    ensures var r := Heartbeat(t, j, g, check, now); r.Success? ==> Inv(r.value)
  {
    var r := Heartbeat(t, j, g, check, now);
    if r.Success? {
      assert JobRow(t, j) && Row(t, j, g);
      RewriteByAttempt(t, j, r.value);
    }
  }

  lemma CheckpointKeepsInv(t: Tables, j: JobId, g: nat, digest: string, check: real, now: real)
    requires Inv(t)
    ensures var r := Checkpoint(t, j, g, digest, check, now); r.Success? ==> Inv(r.value)
  {
    var r := Checkpoint(t, j, g, digest, check, now);
    if r.Success? {
      assert JobRow(t, j) && Row(t, j, g);
      RewriteByAttempt(t, j, r.value);
    }
  }

  lemma FinishKeepsInv(t: Tables, j: JobId, g: nat, status: State, report: Reference, now: real)
    requires Inv(t) && Owns(t, j, g)
    ensures var r := Finish(t, j, g, status, report, now); r.Success? ==> Inv(r.value)
  {
    var r := Finish(t, j, g, status, report, now);
    if r.Success? {
      assert JobRow(t, j) && Row(t, j, g);
      RewriteByAttempt(t, j, r.value);
    }
  }

  lemma FailKeepsInv(t: Tables, j: JobId, g: nat, reason: Reason, recovery: bool, review: bool, check: real, now: real)
    requires Inv(t) && reason != OperatorCancelled
    ensures var r := Fail(t, j, g, reason, recovery, review, check, now); r.Success? ==> Inv(r.value)
  {
    var r := Fail(t, j, g, reason, recovery, review, check, now);
    if r.Success? && Owns(t, j, g) {
      assert JobRow(t, j) && Row(t, j, g);
      RewriteByAttempt(t, j, r.value);
    }
  }

  lemma CancelKeepsInv(t: Tables, j: JobId, now: real)
    requires Inv(t)
    ensures var r := Cancel(t, j, now); r.Success? ==> Inv(r.value)
  {
    var r := Cancel(t, j, now);
    if r.Success? && t.jobs[j].state.Waiting() {
      assert JobRow(t, j);
      assert t.jobs[j].generation >= 1 ==> Row(t, j, t.jobs[j].generation);
      RewriteByAttempt(t, j, r.value);
    }
  }

  lemma ClaimKeepsInv(t: Tables, now: real)
    requires Inv(t)
    ensures var r := Claim(t, now); r.Success? ==> Inv(r.value.0)
  {
    var r := Claim(t, now);
    if r.Success? && r.value.1.Some? {
      ClaimedRows(t, now);
      ClaimedSets(t, now);
    }
  }

  lemma ClaimedRows(t: Tables, now: real)
    requires Inv(t) && Claim(t, now).Success? && Claim(t, now).value.1.Some?
    ensures var u := Claim(t, now).value.0; forall i {:trigger JobRow(u, i)} :: i in u.jobs ==> JobRow(u, i)
  {
    var j, u := Claim(t, now).value.1.value, Claim(t, now).value.0;
    ClaimedRow(t, now);
    forall i | i in u.jobs ensures JobRow(u, i) {
      if i != j { OtherRowKept(t, u, i); }
    }
  }

  lemma ClaimedSets(t: Tables, now: real)
    requires Claim(t, now).Success? && Claim(t, now).value.1.Some?
    ensures var u, j := Claim(t, now).value.0, Claim(t, now).value.1.value;
      WaitingJobs(u.jobs) == WaitingJobs(t.jobs) && ActiveJobs(u.jobs) == {j}
  {
    var u, j := Claim(t, now).value.0, Claim(t, now).value.1.value;
    assert WaitingJobs(u.jobs) == WaitingJobs(t.jobs);
    assert ActiveJobs(u.jobs) == {j};
  }

  lemma ClaimedRow(t: Tables, now: real)
    requires Inv(t)
    requires Claim(t, now).Success? && Claim(t, now).value.1.Some?
    ensures var u, j := Claim(t, now).value.0, Claim(t, now).value.1.value; j in u.jobs && JobRow(u, j)
  {
    var u, j := Claim(t, now).value.0, Claim(t, now).value.1.value;
    var last := t.jobs[j].generation;
    assert JobRow(t, j);
    assert forall g: nat :: Row(u, j, g) <==> Row(t, j, g) || g == last + 1;
    forall g: nat | 1 <= g < last + 1 ensures Superseded(u, j, g) {
      assert Row(t, j, g) && Row(u, j, g + 1);
      if g < last {
        assert Row(t, j, g + 1) && Superseded(t, j, g);
      } else {
        assert CurrentRow(t.jobs[j], t.attempts[AttemptKey(j, last)]);
      }
    }
  }

  lemma PlanPurgeKeepsInv(t: Tables, j: JobId, now: real)
    requires Inv(t)
    ensures var r := PlanPurge(t, j, now); r.Success? ==> Inv(r.value)
  {
    var r := PlanPurge(t, j, now);
    if r.Success? {
      var u := r.value;
      assert JobRow(t, j);
      PlannedEpisodes(t, j, u.purges[j]);
      forall i | i in u.jobs ensures JobRow(u, i) {
        OtherRowKept(t, u, i);
      }
    }
  }

  lemma PlannedEpisodes(t: Tables, j: JobId, purge: Purge)
    requires Episodes(t) && j in t.jobs && t.jobs[j].key in t.episodes && t.episodes[t.jobs[j].key] == j
    requires !t.jobs[j].state.Waiting() && purge.completedAt.None?
    ensures Episodes(t.(purges := t.purges[j := purge]))
  {
  }

  lemma DeletePurgedKeepsInv(t: Tables, j: JobId, now: real)
    requires Inv(t)
    ensures var r := DeletePurged(t, j, now); r.Success? ==> Inv(r.value)
  {
    var r := DeletePurged(t, j, now);
    if r.Success? {
      var u := r.value;
      forall i | i in u.jobs ensures JobRow(u, i) {
        OtherRowKept(t, u, i);
      }
      Sets.SubsetSize(WaitingJobs(u.jobs), WaitingJobs(t.jobs));
      assert ActiveJobs(u.jobs) <= ActiveJobs(t.jobs);
    }
  }

  // ---------------------------------------------------------------- every run

  datatype Op =
    | OpSubmit(key: EpisodeKey, fingerprint: Fingerprint, payload: Payload, now: real, uuid: JobId)
    | OpClaim(now: real)
    | OpHeartbeat(job: JobId, generation: nat, check: real, now: real)
    | OpCheckpoint(job: JobId, generation: nat, digest: string, check: real, now: real)
    | OpFinish(job: JobId, generation: nat, status: State, report: Reference, check: real, now: real)
    | OpFinishRecovered(job: JobId, generation: nat, status: State, report: Reference, check: real, now: real)
    | OpFail(job: JobId, generation: nat, reason: Reason, recovery: bool, review: bool, check: real, now: real)
    | OpCancel(job: JobId, now: real)
    | OpPlanPurge(job: JobId, now: real)
    | OpDeletePurged(job: JobId, now: real)
  {
    /** An operation sent on behalf of one attempt. */
    predicate ByAttempt(j: JobId, g: nat) {
      (OpHeartbeat? || OpCheckpoint? || OpFinish? || OpFinishRecovered? || OpFail?) && job == j && generation == g
    }
  }

  /** One transaction; a failed one is rolled back. */
  ghost function Step(t: Tables, op: Op): (u: Tables)
    requires Inv(t)
  {
    InvHasUniqueKeys(t);
    match op
    case OpSubmit(key, fp, payload, now, uuid) =>
      var r := Submit(t, key, fp, payload, now, uuid); if r.Success? then r.value.0 else t
    case OpClaim(now) =>
      var r := Claim(t, now); if r.Success? then r.value.0 else t
    case _ => UpdateStep(t, op)
  }

  /** The transactions on one named job. */
  ghost function UpdateStep(t: Tables, op: Op): (u: Tables)
    requires !op.OpSubmit? && !op.OpClaim?
  {
    match op
    case OpHeartbeat(j, g, check, now) => Committed(t, Heartbeat(t, j, g, check, now))
    case OpCheckpoint(j, g, digest, check, now) => Committed(t, Checkpoint(t, j, g, digest, check, now))
    case OpFinish(j, g, status, report, check, now) => Committed(t, FinishOwned(t, j, g, status, report, check, now))
    case OpFinishRecovered(j, g, status, report, check, now) =>
      Committed(t, FinishRecovered(t, j, g, status, report, check, now))
    case OpFail(j, g, reason, recovery, review, check, now) =>
      if reason == OperatorCancelled then t else Committed(t, Fail(t, j, g, reason, recovery, review, check, now))
    case OpCancel(j, now) => Committed(t, Cancel(t, j, now))
    case OpPlanPurge(j, now) => Committed(t, PlanPurge(t, j, now))
    case OpDeletePurged(j, now) => Committed(t, DeletePurged(t, j, now))
  }

  ghost function Committed(t: Tables, r: Result<Tables, Error>): Tables {
    if r.Success? then r.value else t
  }

  lemma StepKeepsInv(t: Tables, op: Op)
    requires Inv(t)
    ensures Inv(Step(t, op))
  {
    InvHasUniqueKeys(t);
    match op
    case OpSubmit(key, fp, payload, now, uuid) => SubmitKeepsInv(t, key, fp, payload, now, uuid);
    case OpClaim(now) => ClaimKeepsInv(t, now);
    case OpHeartbeat(j, g, check, now) => HeartbeatKeepsInv(t, j, g, check, now);
    case OpCheckpoint(j, g, digest, check, now) => CheckpointKeepsInv(t, j, g, digest, check, now);
    case OpFinish(j, g, status, report, check, now) =>
      if Owns(t, j, g) { FinishKeepsInv(t, j, g, status, report, now); }
    case OpFinishRecovered(j, g, status, report, check, now) =>
      if Owns(t, j, g) { FinishKeepsInv(t, j, g, status, report, now); }
    case OpFail(j, g, reason, recovery, review, check, now) =>
      if reason != OperatorCancelled { FailKeepsInv(t, j, g, reason, recovery, review, check, now); }
    case OpCancel(j, now) => CancelKeepsInv(t, j, now);
    case OpPlanPurge(j, now) => PlanPurgeKeepsInv(t, j, now);
    case OpDeletePurged(j, now) => DeletePurgedKeepsInv(t, j, now);
  }

  /** The tables after any interleaving; they satisfy the queue invariant. */
  ghost function Run(t: Tables, ops: seq<Op>): (u: Tables)
    requires Inv(t)
    ensures Inv(u)
    decreases |ops|
  {
    if ops == [] then t else StepKeepsInv(t, ops[0]); Run(Step(t, ops[0]), ops[1..])
  }

  function Doubled(a: nat): real { if a == 0 then 2.5 else 2.0 * Doubled(a - 1) }

  /** The backoff before attempt a + 1 is 5 * 2^(a-1) seconds, at most 20. */
  lemma {:induction false} BackoffIsCappedDoubling(a: nat)
    ensures Backoff(a) == if Doubled(a) < 20.0 then Doubled(a) else 20.0
  {
    if a > 0 { BackoffIsCappedDoubling(a - 1); }
  }

  /** Two claims of a job are apart by the backoff of the attempt that failed between them. */
  lemma ClaimsAreSpaced(ops: seq<Op>, j: JobId, g: nat)
    ensures Inv(EMPTY)
    ensures var t := Run(EMPTY, ops); var k, next := AttemptKey(j, g), AttemptKey(j, g + 1);
      j in t.jobs && 1 <= g < t.jobs[j].generation ==>
        && k in t.attempts && next in t.attempts && t.attempts[k].state.Failed? && t.attempts[k].finishedAt.Some?
        && t.attempts[next].startedAt >= t.attempts[k].finishedAt.value + (if Doubled(g) < 20.0 then Doubled(g)
                                                                           else 20.0)
  {
    EmptyInv();
    var t := Run(EMPTY, ops);
    if j in t.jobs && 1 <= g < t.jobs[j].generation {
      assert JobRow(t, j);
      assert Row(t, j, g) && Row(t, j, g + 1);
      assert Superseded(t, j, g);
      BackoffIsCappedDoubling(g);
    }
  }

  lemma AtMostOne(s: set<JobId>)
    requires forall i, j :: i in s && j in s ==> i == j
    ensures |s| <= 1
  {
    if i :| i in s { assert s == {i}; }
  }

  /**
   In every reachable database: one active job at most, a bounded queue, and each job's attempts and lease as
   its state says.
   */
  lemma ReachableShape(ops: seq<Op>, j: JobId, g: nat)
    ensures Inv(EMPTY)
    ensures var t := Run(EMPTY, ops);
      && |ActiveJobs(t.jobs)| <= 1 && |WaitingJobs(t.jobs)| <= MAX_WAITING
      && (j in t.jobs ==>
            && t.jobs[j].generation == t.jobs[j].attempts <= MAX_ATTEMPTS
            && (t.jobs[j].leaseUntil.Some? <==> t.jobs[j].state.Active())
            && t.jobs[j].key in t.episodes && t.episodes[t.jobs[j].key] == j
            && (AttemptKey(j, g) in t.attempts <==> 1 <= g <= t.jobs[j].generation)
            && (AttemptKey(j, g) in t.attempts ==>
                  && t.attempts[AttemptKey(j, g)].parent == (if g == 1 then None else Some(g - 1))
                  && (g < t.jobs[j].generation ==> t.attempts[AttemptKey(j, g)].state.Failed?)))
  {
    EmptyInv();
    var t := Run(EMPTY, ops);
    AtMostOne(ActiveJobs(t.jobs));
    if j in t.jobs {
      assert JobRow(t, j);
      assert Row(t, j, g) <==> AttemptKey(j, g) in t.attempts;
      if 1 <= g < t.jobs[j].generation {
        assert Row(t, j, g + 1);
        assert Superseded(t, j, g);
      }
    }
  }

  // ---------------------------------------------------------------- what a step does to one job

  ghost predicate Moves(a: Job, b: Job) {
    && b.key == a.key && b.fingerprint == a.fingerprint && b.payload == a.payload && b.createdAt == a.createdAt
    && (|| b == a
        || (a.state.Queued? && b.state.Collecting? && b.generation == a.generation + 1)
        || (a.state.Active() && b.generation == a.generation &&
              (b.state == a.state || !(b.state.Collecting? || b.state.Cancelled?)))
        || (a.state.Waiting() && b.generation == a.generation && b.state.Cancelled?))
  }

  lemma SubmitMovesNothing(t: Tables, key: EpisodeKey, fingerprint: Fingerprint, payload: Payload, now: real,
                           uuid: JobId, j: JobId)
    requires KeysUnique(t.jobs) && j in t.jobs
    ensures var r := Submit(t, key, fingerprint, payload, now, uuid);
      r.Success? ==> j in r.value.0.jobs && r.value.0.jobs[j] == t.jobs[j] && r.value.0.attempts == t.attempts
                     && r.value.0.purges == t.purges
  {}

  lemma ClaimMoves(t: Tables, now: real, j: JobId)
    requires j in t.jobs
    ensures var r := Claim(t, now);
      r.Success? ==> j in r.value.0.jobs && Moves(t.jobs[j], r.value.0.jobs[j]) && r.value.0.purges == t.purges
    ensures var r := Claim(t, now);
      r.Success? ==> forall k :: k in t.attempts ==> k in r.value.0.attempts && r.value.0.attempts[k] == t.attempts[k]
  {}

  /** The other transactions move one job, and write no attempt row below its generation. */
  lemma UpdateMovesJob(t: Tables, op: Op, j: JobId)
    requires j in t.jobs && !op.OpSubmit? && !op.OpClaim?
    ensures var u := UpdateStep(t, op);
      if j in u.jobs then Moves(t.jobs[j], u.jobs[j]) else j in t.purges && j in u.purges && op.OpDeletePurged?
  {}

  lemma UpdateMoves(t: Tables, op: Op, j: JobId)
    requires j in t.jobs && !op.OpSubmit? && !op.OpClaim?
    ensures var u := UpdateStep(t, op);
      if j in u.jobs then Moves(t.jobs[j], u.jobs[j]) else j in t.purges && j in u.purges && op.OpDeletePurged?
    ensures var u := UpdateStep(t, op);
      j in u.jobs ==> forall k :: k in t.attempts && k.job == j && k.generation < t.jobs[j].generation ==>
                        k in u.attempts && u.attempts[k] == t.attempts[k]
  {
    UpdateMovesJob(t, op, j);
  }

  lemma StepMoves(t: Tables, op: Op, j: JobId)
    requires Inv(t) && j in t.jobs
    ensures var u := Step(t, op);
      if j in u.jobs then Moves(t.jobs[j], u.jobs[j]) else j in t.purges && j in u.purges && op.OpDeletePurged?
    ensures var u := Step(t, op);
      j in u.jobs ==> forall k :: k in t.attempts && k.job == j && k.generation < t.jobs[j].generation ==>
                        k in u.attempts && u.attempts[k] == t.attempts[k]
  {
    InvHasUniqueKeys(t);
    match op
    case OpSubmit(key, fp, payload, now, uuid) => SubmitMovesNothing(t, key, fp, payload, now, uuid, j);
    case OpClaim(now) => ClaimMoves(t, now, j);
    case _ => UpdateMoves(t, op, j);
  }

  /** No transaction but a submission adds a job, a submission never reuses a known id, and keys stay. */
  lemma SubmitAddsNoKnownJob(t: Tables, key: EpisodeKey, fingerprint: Fingerprint, payload: Payload, now: real,
                             uuid: JobId)
    requires KeysUnique(t.jobs)
    ensures var r := Submit(t, key, fingerprint, payload, now, uuid);
      r.Success? ==>
        && r.value.0.purges == t.purges
        && (forall j :: j in r.value.0.jobs && j !in t.jobs ==> j !in t.episodes.Values)
        && (forall k :: k in t.episodes ==> k in r.value.0.episodes && r.value.0.episodes[k] == t.episodes[k])
  {}

  lemma UpdateAddsNoJob(t: Tables, op: Op)
    requires !op.OpSubmit?
    ensures var u := if op.OpClaim? then (var r := Claim(t, op.now); if r.Success? then r.value.0 else t)
            else UpdateStep(t, op);
      u.jobs.Keys <= t.jobs.Keys && t.purges.Keys <= u.purges.Keys && u.episodes == t.episodes
  {}

  lemma DeletedStaysDeleted(t: Tables, op: Op, j: JobId)
    requires Inv(t) && j !in t.jobs && j in t.purges
    ensures var u := Step(t, op); j !in u.jobs && j in u.purges
  {
    InvHasUniqueKeys(t);
    assert j in t.episodes.Values;
    match op
    case OpSubmit(key, fp, payload, now, uuid) => SubmitAddsNoKnownJob(t, key, fp, payload, now, uuid);
    case _ => UpdateAddsNoJob(t, op);
  }

  // ---------------------------------------------------------------- fencing

  /** Attempt g of job j can no longer act: the job moved on, stopped, or was deleted. */
  ghost predicate Retired(t: Tables, j: JobId, g: nat) {
    if j in t.jobs then t.jobs[j].generation > g || (t.jobs[j].generation == g && !t.jobs[j].state.Active())
    else j in t.purges
  }

  /** An operation of a retired attempt changes no table; heartbeat, checkpoint and finish report the loss. */
  lemma RetiredAttemptIsFenced(t: Tables, j: JobId, g: nat, op: Op)
    requires Inv(t) && Retired(t, j, g) && op.ByAttempt(j, g)
    ensures Step(t, op) == t
    ensures op.OpHeartbeat? ==> Heartbeat(t, j, g, op.check, op.now) == Failure(LeaseLost)
    ensures op.OpCheckpoint? ==> Checkpoint(t, j, g, op.digest, op.check, op.now) == Failure(LeaseLost)
    ensures op.OpFinish? ==> FinishOwned(t, j, g, op.status, op.report, op.check, op.now) == Failure(LeaseLost)
  {
    InvHasUniqueKeys(t);
  }

  lemma RetiredStaysRetired(t: Tables, op: Op, j: JobId, g: nat)
    requires Inv(t) && Retired(t, j, g)
    ensures Retired(Step(t, op), j, g)
  {
    if j in t.jobs { StepMoves(t, op, j); } else { DeletedStaysDeleted(t, op, j); }
  }

  /** Whatever runs in between, a late operation of a retired attempt changes nothing, and is told so. */
  lemma {:induction false} LateOperationChangesNothing(t: Tables, ops: seq<Op>, j: JobId, g: nat, late: Op)
    requires Inv(t) && Retired(t, j, g) && late.ByAttempt(j, g)
    ensures Retired(Run(t, ops), j, g)
    ensures Step(Run(t, ops), late) == Run(t, ops)
    ensures late.OpHeartbeat? ==> Heartbeat(Run(t, ops), j, g, late.check, late.now) == Failure(LeaseLost)
    ensures late.OpCheckpoint? ==>
            Checkpoint(Run(t, ops), j, g, late.digest, late.check, late.now) == Failure(LeaseLost)
    ensures late.OpFinish? ==>
            FinishOwned(Run(t, ops), j, g, late.status, late.report, late.check, late.now) == Failure(LeaseLost)
    decreases |ops|
  {
    if ops == [] {
      RetiredAttemptIsFenced(t, j, g, late);
    } else {
      RetiredStaysRetired(t, ops[0], j, g);
      StepKeepsInv(t, ops[0]);
      LateOperationChangesNothing(Step(t, ops[0]), ops[1..], j, g, late);
    }
  }

  /** At any clock reading the owner's fail applies exactly when recovery's does not. */
  lemma OwnerAndRecoveryExclude(t: Tables, j: JobId, g: nat, reason: Reason, review: bool, check: real, now: real)
    requires Inv(t) && Owns(t, j, g) && reason != OperatorCancelled && check >= 0.0 && now >= 0.0
    ensures t.jobs[j].leaseUntil.Some?
    ensures Fail(t, j, g, reason, false, review, check, now).Success? <==> t.jobs[j].leaseUntil.value > check
    ensures Fail(t, j, g, reason, true, review, check, now).Success? <==> t.jobs[j].leaseUntil.value <= check
    ensures FinishRecovered(t, j, g, Completed, Reference("", "", ""), check, now).Success?
            <==> Fail(t, j, g, reason, true, review, check, now).Success?
  {
    assert JobRow(t, j);
  }

  // ---------------------------------------------------------------- finality

  lemma TerminalStepKeeps(t: Tables, op: Op, j: JobId)
    requires Inv(t) && j in t.jobs && !t.jobs[j].state.Waiting()
    ensures var u := Step(t, op); if j in u.jobs then u.jobs[j] == t.jobs[j] else j in u.purges
  {
    StepMoves(t, op, j);
  }

  /** A terminal job, with its report reference, is never touched again; retention alone may delete it. */
  lemma {:induction false} TerminalJobsAreFinal(t: Tables, ops: seq<Op>, j: JobId)
    requires Inv(t)
    requires if j in t.jobs then !t.jobs[j].state.Waiting() else j in t.purges
    ensures var u := Run(t, ops);
      if j in u.jobs then j in t.jobs && u.jobs[j] == t.jobs[j] else j in u.purges
    decreases |ops|
  {
    if ops != [] {
      if j in t.jobs { TerminalStepKeeps(t, ops[0], j); } else { DeletedStaysDeleted(t, ops[0], j); }
      StepKeepsInv(t, ops[0]);
      TerminalJobsAreFinal(Step(t, ops[0]), ops[1..], j);
    }
  }

  /** A superseded attempt's row is frozen for as long as the job has rows at all. */
  lemma {:induction false} SupersededAttemptsAreFinal(t: Tables, ops: seq<Op>, j: JobId, g: nat)
    requires Inv(t)
    requires if j in t.jobs then 1 <= g < t.jobs[j].generation else j in t.purges
    ensures var u := Run(t, ops);
      if j in u.jobs
      then j in t.jobs && g < u.jobs[j].generation && Row(t, j, g) && Row(u, j, g) &&
           u.attempts[AttemptKey(j, g)] == t.attempts[AttemptKey(j, g)]
      else j in u.purges
    decreases |ops|
  {
    if j in t.jobs { assert JobRow(t, j) && Row(t, j, g); }
    if ops != [] {
      if j in t.jobs { StepMoves(t, ops[0], j); } else { DeletedStaysDeleted(t, ops[0], j); }
      StepKeepsInv(t, ops[0]);
      SupersededAttemptsAreFinal(Step(t, ops[0]), ops[1..], j, g);
    }
  }

  /** Cancelling a job that waits to be retried: the one transaction that rewrites a finished row. */
  ghost predicate CancelsRetry(t: Tables, op: Op, k: AttemptKey) {
    && op.OpCancel? && op.now >= 0.0 && op.job == k.job
    && k.job in t.jobs && t.jobs[k.job].state.Queued? && t.jobs[k.job].generation == k.generation
  }

  /** A finished row is that of a superseded attempt, or its job is not active. */
  lemma FinishedRowIsPast(t: Tables, k: AttemptKey)
    requires Inv(t) && k in t.attempts && t.attempts[k].finishedAt.Some?
    ensures k.job in t.jobs && k.generation <= t.jobs[k.job].generation
    ensures t.jobs[k.job].state.Active() ==> k.generation < t.jobs[k.job].generation
    ensures t.jobs[k.job].state.Queued? && k.generation == t.jobs[k.job].generation ==> t.attempts[k].state.Failed?
  {
    assert JobRow(t, k.job) && Row(t, k.job, k.generation);
  }

  lemma OtherJobsRowsStay(t: Tables, op: Op, k: AttemptKey)
    requires k in t.attempts && !op.OpSubmit? && !op.OpClaim? && op.job != k.job
    ensures var u := UpdateStep(t, op); k in u.attempts && u.attempts[k] == t.attempts[k]
  {
  }

  lemma OwnRowChanges(t: Tables, op: Op, k: AttemptKey)
    requires k in t.attempts && k.job in t.jobs && !op.OpSubmit? && !op.OpClaim? && op.job == k.job
    requires t.jobs[k.job].state.Active() ==> k.generation < t.jobs[k.job].generation
    requires t.jobs[k.job].state.Queued? && k.generation == t.jobs[k.job].generation ==> t.attempts[k].state.Failed?
    ensures var u := UpdateStep(t, op);
            if k in u.attempts then u.attempts[k] != t.attempts[k] <==> CancelsRetry(t, op, k)
            else op.OpDeletePurged? && k.job in u.purges
  {
  }

  /** Submitting and claiming only add rows. */
  lemma AddingKeepsRows(t: Tables, op: Op, k: AttemptKey)
    requires Inv(t) && k in t.attempts && k.job in t.jobs && (op.OpSubmit? || op.OpClaim?)
    ensures k in Step(t, op).attempts && Step(t, op).attempts[k] == t.attempts[k]
  {
    InvHasUniqueKeys(t);
    if op.OpSubmit? {
      SubmitMovesNothing(t, op.key, op.fingerprint, op.payload, op.now, op.uuid, k.job);
    } else {
      ClaimMoves(t, op.now, k.job);
    }
  }

  /**
   A finished attempt row that is still there changed exactly when its job was cancelled while waiting to be
   retried after that very attempt; only retention takes rows away.
   */
  lemma FinishedRowChangesExactly(t: Tables, op: Op, k: AttemptKey)
    requires Inv(t) && k in t.attempts && t.attempts[k].finishedAt.Some?
    ensures var u := Step(t, op);
            if k in u.attempts then u.attempts[k] != t.attempts[k] <==> CancelsRetry(t, op, k)
            else op.OpDeletePurged? && op.job == k.job && k.job in u.purges
  {
    FinishedRowIsPast(t, k);
    if op.OpSubmit? || op.OpClaim? {
      AddingKeepsRows(t, op, k);
    } else if op.job == k.job {
      OwnRowChanges(t, op, k);
    } else {
      OtherJobsRowsStay(t, op, k);
    }
  }

  lemma EndedOwnRowStays(t: Tables, op: Op, k: AttemptKey)
    requires k in t.attempts && k.job in t.jobs && !t.jobs[k.job].state.Waiting()
    requires !op.OpSubmit? && !op.OpClaim? && op.job == k.job
    ensures var u := UpdateStep(t, op);
            if k.job in u.jobs then k in u.attempts && u.attempts[k] == t.attempts[k] else k.job in u.purges
  {
  }

  lemma EndedRowsStay(t: Tables, op: Op, k: AttemptKey)
    requires Inv(t) && k in t.attempts && k.job in t.jobs && !t.jobs[k.job].state.Waiting()
    ensures var u := Step(t, op); if k.job in u.jobs then k in u.attempts && u.attempts[k] == t.attempts[k]
            else k.job in u.purges
  {
    TerminalStepKeeps(t, op, k.job);
    if op.OpSubmit? || op.OpClaim? {
      AddingKeepsRows(t, op, k);
    } else if op.job == k.job {
      EndedOwnRowStays(t, op, k);
    } else {
      OtherJobsRowsStay(t, op, k);
    }
  }

  /** Once its job has ended, every attempt row is final until the job is purged, the last one included. */
  lemma {:induction false} EndedAttemptsAreFinal(t: Tables, ops: seq<Op>, k: AttemptKey)
    requires Inv(t) && k in t.attempts && k.job in t.jobs && !t.jobs[k.job].state.Waiting()
    ensures var u := Run(t, ops); if k.job in u.jobs then k in u.attempts && u.attempts[k] == t.attempts[k]
            else k.job in u.purges
    decreases |ops|
  {
    if ops != [] {
      var u := Step(t, ops[0]);
      StepKeepsInv(t, ops[0]);
      EndedRowsStay(t, ops[0], k);
      TerminalStepKeeps(t, ops[0], k.job);
      if k.job in u.jobs {
        EndedAttemptsAreFinal(u, ops[1..], k);
      } else {
        TerminalJobsAreFinal(u, ops[1..], k.job);
      }
    }
  }

  // ---------------------------------------------------------------- bounded work

  /** Three state changes for each attempt left: claim, checkpoint, end. */
  ghost function Measure(job: Job): nat
    requires job.attempts <= MAX_ATTEMPTS
  {
    var left := 3 * (MAX_ATTEMPTS - job.attempts);
    match job.state
    case Queued => left
    case Collecting => left + 2
    case Analyzing => left + 1
    case _ => 0
  }

  ghost predicate Changes(t: Tables, op: Op, j: JobId)
    requires Inv(t)
  {
    j in t.jobs && j in Step(t, op).jobs &&
    (Step(t, op).jobs[j].state != t.jobs[j].state || Step(t, op).jobs[j].generation != t.jobs[j].generation)
  }

  ghost predicate ClaimsJob(t: Tables, op: Op, j: JobId)
    requires Inv(t)
  {
    j in t.jobs && j in Step(t, op).jobs && Step(t, op).jobs[j].generation > t.jobs[j].generation
  }

  /** How many operations of a run change the state of job j, and how many claim it. */
  ghost function CountChanges(t: Tables, ops: seq<Op>, j: JobId): nat
    requires Inv(t)
    decreases |ops|
  {
    if ops == [] then 0
    else StepKeepsInv(t, ops[0]);
         (if Changes(t, ops[0], j) then 1 else 0) + CountChanges(Step(t, ops[0]), ops[1..], j)
  }

  ghost function CountClaims(t: Tables, ops: seq<Op>, j: JobId): nat
    requires Inv(t)
    decreases |ops|
  {
    if ops == [] then 0
    else StepKeepsInv(t, ops[0]);
         (if ClaimsJob(t, ops[0], j) then 1 else 0) + CountClaims(Step(t, ops[0]), ops[1..], j)
  }

  lemma ChangesDecrease(t: Tables, op: Op, j: JobId)
    requires Inv(t) && j in t.jobs && j in Step(t, op).jobs
    ensures t.jobs[j].attempts <= Step(t, op).jobs[j].attempts <= MAX_ATTEMPTS && t.jobs[j].attempts <= MAX_ATTEMPTS
    ensures if Changes(t, op, j) then Measure(Step(t, op).jobs[j]) < Measure(t.jobs[j])
            else Measure(Step(t, op).jobs[j]) == Measure(t.jobs[j])
    ensures ClaimsJob(t, op, j) ==> Step(t, op).jobs[j].attempts == t.jobs[j].attempts + 1
  {
    StepMoves(t, op, j);
    StepKeepsInv(t, op);
    assert JobRow(t, j) && JobRow(Step(t, op), j);
  }

  lemma {:induction false} DeletedJobsDoNothing(t: Tables, ops: seq<Op>, j: JobId)
    requires Inv(t) && j !in t.jobs && j in t.purges
    ensures CountChanges(t, ops, j) == 0 && CountClaims(t, ops, j) == 0
    decreases |ops|
  {
    if ops != [] {
      DeletedStaysDeleted(t, ops[0], j);
      StepKeepsInv(t, ops[0]);
      DeletedJobsDoNothing(Step(t, ops[0]), ops[1..], j);
    }
  }

  /** Over any run a job changes state at most Measure times and is claimed at most once per attempt left. */
  lemma {:induction false} WorkIsBounded(t: Tables, ops: seq<Op>, j: JobId)
    requires Inv(t) && j in t.jobs
    ensures t.jobs[j].attempts <= MAX_ATTEMPTS
    ensures CountChanges(t, ops, j) <= Measure(t.jobs[j]) <= 9
    ensures CountClaims(t, ops, j) <= MAX_ATTEMPTS - t.jobs[j].attempts
    decreases |ops|
  {
    assert JobRow(t, j);
    if ops != [] {
      var u := Step(t, ops[0]);
      StepKeepsInv(t, ops[0]);
      StepMoves(t, ops[0], j);
      if j in u.jobs {
        ChangesDecrease(t, ops[0], j);
        WorkIsBounded(u, ops[1..], j);
      } else {
        DeletedJobsDoNothing(u, ops[1..], j);
      }
    }
  }

  // ---------------------------------------------------------------- one job for each key

  lemma StepKeepsKey(t: Tables, op: Op, key: EpisodeKey)
    requires Inv(t) && key in t.episodes
    ensures key in Step(t, op).episodes && Step(t, op).episodes[key] == t.episodes[key]
  {
    InvHasUniqueKeys(t);
    match op
    case OpSubmit(k, fp, payload, now, uuid) => SubmitAddsNoKnownJob(t, k, fp, payload, now, uuid);
    case _ => UpdateAddsNoJob(t, op);
  }

  /** A key submitted once is answered by that same job for ever, or refused; no second job appears. */
  lemma {:induction false} KeyHasOneJob(t: Tables, ops: seq<Op>, key: EpisodeKey,
      fingerprint: Fingerprint, payload: Payload, now: real, uuid: JobId)
    requires Inv(t) && key in t.episodes
    ensures var u := Run(t, ops);
      && KeysUnique(u.jobs) && key in u.episodes && u.episodes[key] == t.episodes[key]
      && match Submit(u, key, fingerprint, payload, now, uuid)
         case Success(r) => r == (u, t.episodes[key], true) && t.episodes[key] in u.jobs
                            && u.jobs[t.episodes[key]].fingerprint == fingerprint
         case Failure(e) => e == PurgedKey || e == FingerprintConflict
    decreases |ops|
  {
    InvHasUniqueKeys(t);
    if ops == [] {
      var j := t.episodes[key];
      if j in t.jobs { assert JobRow(t, j); }
    } else {
      StepKeepsKey(t, ops[0], key);
      StepKeepsInv(t, ops[0]);
      KeyHasOneJob(Step(t, ops[0]), ops[1..], key, fingerprint, payload, now, uuid);
      InvHasUniqueKeys(Run(t, ops));
    }
  }

  /** A claim takes a job no other ready job precedes, and only when nothing is active. */
  lemma ClaimTakesTheOldest(t: Tables, now: real)
    requires Inv(t) && now >= 0.0
    ensures match Claim(t, now)
      case Success((u, None)) => u == t && (ActiveJobs(t.jobs) != {} || ReadyJobs(t.jobs, now) == {})
      case Success((u, Some(j))) =>
        && ActiveJobs(t.jobs) == {} && j in ReadyJobs(t.jobs, now)
        && (forall i :: i in ReadyJobs(t.jobs, now) && i != j ==> Before(t.jobs, j, i))
        && j in u.jobs && u.jobs[j].leaseUntil == Some(now + 60.0)
        && u.jobs[j].generation == t.jobs[j].generation + 1
      case Failure(_) => false
  {
    var ready := ReadyJobs(t.jobs, now);
    if ActiveJobs(t.jobs) == {} && ready != {} {
      var j := Oldest(t.jobs, ready);
      assert JobRow(t, j);
      assert !Row(t, j, t.jobs[j].generation + 1);
    }
  }
}