/**
 What each transaction of the queue does, in every reachable database: exactly when it takes effect, what it
 then writes, and that it leaves every other job, attempt and purge record alone.
 */
module JobQueueLife {
  import opened Wrappers
  import opened JobQueue
  import opened JobQueueLaws
  import opened JobQueueRetry

  // ---- submission ----

  /** The key was given to a job that is being deleted or is gone. */
  predicate Deleted(t: Tables, key: EpisodeKey) { key in t.episodes && t.episodes[key] in t.purges }

  ghost predicate OnlyNewJob(t: Tables, u: Tables, key: EpisodeKey, j: JobId) {
    && u.attempts == t.attempts && u.purges == t.purges
    && u.episodes == t.episodes[key := j] && key !in t.episodes && j !in t.jobs
    && j in u.jobs && u.jobs == t.jobs[j := u.jobs[j]]
  }

  function Waits(t: Tables): set<JobId> {
    set j | j in t.jobs && (t.jobs[j].state.Queued? || t.jobs[j].state.Collecting? || t.jobs[j].state.Analyzing?)
  }

  /**
   A key is answered by its own job, exactly if that is not being deleted and was submitted with the same content;
   a new key starts a job exactly if fewer than a hundred wait.
   */
  lemma SubmittedExactly(t: Tables, key: EpisodeKey, fingerprint: Fingerprint, payload: Payload, now: real, uuid: JobId)
    requires Inv(t) && KeysUnique(t.jobs) && uuid !in t.jobs && uuid !in t.episodes.Values
    ensures var r := Submit(t, key, fingerprint, payload, now, uuid);
            if key in t.episodes then
              if Deleted(t, key) then r == Failure(PurgedKey)
              else && t.episodes[key] in t.jobs && t.jobs[t.episodes[key]].key == key
                   && r == if t.jobs[t.episodes[key]].fingerprint == fingerprint
                      then Success((t, t.episodes[key], true))
                           else Failure(FingerprintConflict)
            else if |Waits(t)| >= 100 then r == Failure(QueueFull)
            else
              && r.Success? && r.value.1 == uuid && !r.value.2 && OnlyNewJob(t, r.value.0, key, uuid)
              && r.value.0.jobs[uuid] == Job(key, fingerprint, payload, Queued, 0, 0, None, now, now, now, None, None,
                                             None)
  {
    assert Waits(t) == WaitingJobs(t.jobs);
    var row := JobWithKey(t.jobs, key);
    if row.Some? { assert JobRow(t, row.value); }
  }

  // ---- claiming ----

  /** A job that can be claimed: it waits, and its pause is over. */
  predicate Due(t: Tables, j: JobId, now: real) {
    j in t.jobs && t.jobs[j].state.Queued? && t.jobs[j].availableAt <= now
  }

  ghost predicate ClaimedFrom(t: Tables, u: Tables, j: JobId, now: real) {
    && j in t.jobs && j in u.jobs && u.episodes == t.episodes && u.purges == t.purges
    && u.jobs == t.jobs[j := u.jobs[j]]
    && u.jobs[j] == t.jobs[j].(state := Collecting, generation := t.jobs[j].generation + 1,
                               attempts := t.jobs[j].attempts + 1, leaseUntil := Some(now + 60.0),
                               updatedAt := now, reason := None)
    && var k := AttemptKey(j, u.jobs[j].generation);
       && k !in t.attempts && k in u.attempts && u.attempts == t.attempts[k := u.attempts[k]]
       && u.attempts[k] == Attempt(if t.jobs[j].generation == 0 then None else Some(t.jobs[j].generation), Collecting,
                                   now, None, None)
  }

  /** A job is claimed exactly if it is due and its turn, and nothing else is touched. */
  lemma ClaimedExactly(t: Tables, now: real)
    requires Inv(t)
    ensures var u := Step(t, OpClaim(now));
            if now >= 0.0 && exists j :: Due(t, j, now) && ItsTurn(t, j, now)
            then exists j :: Due(t, j, now) && ItsTurn(t, j, now) && ClaimedFrom(t, u, j, now)
            else u == t
  {
    if now < 0.0 {
      assert Step(t, OpClaim(now)) == t;
    } else if exists j :: Due(t, j, now) && ItsTurn(t, j, now) {
      var j :| Due(t, j, now) && ItsTurn(t, j, now);
      DueJobIsTaken(t, j, now);
      assert ClaimedFrom(t, Step(t, OpClaim(now)), j, now);
    } else if ActiveJobs(t.jobs) == {} && ReadyJobs(t.jobs, now) != {} {
      var j := Oldest(t.jobs, ReadyJobs(t.jobs, now));
      forall i | i in t.jobs ensures !t.jobs[i].state.Active() { assert i !in ActiveJobs(t.jobs); }
      forall i | i in t.jobs && i != j && t.jobs[i].state.Queued? && t.jobs[i].availableAt <= now
        ensures Before(t.jobs, j, i) { assert i in ReadyJobs(t.jobs, now); }
      assert Due(t, j, now) && ItsTurn(t, j, now);
    }
  }

  lemma DueJobIsTaken(t: Tables, j: JobId, now: real)
    requires Inv(t) && now >= 0.0 && Due(t, j, now) && ItsTurn(t, j, now)
    ensures ClaimedFrom(t, Step(t, OpClaim(now)), j, now)
  {
    assert JobRow(t, j);
    assert !Row(t, j, t.jobs[j].generation + 1);
    assert ActiveJobs(t.jobs) == {} && j in ReadyJobs(t.jobs, now);
    assert Oldest(t.jobs, ReadyJobs(t.jobs, now)) == j;
  }

  // ---- the attempt at work ----

  /** This attempt is the current one, and it runs. */
  predicate Runs(t: Tables, j: JobId, g: nat) {
    && j in t.jobs && t.jobs[j].generation == g && (t.jobs[j].state.Collecting? || t.jobs[j].state.Analyzing?)
  }

  predicate LeaseLasts(t: Tables, j: JobId, check: real)
    requires j in t.jobs
  {
    t.jobs[j].leaseUntil.Some? && check < t.jobs[j].leaseUntil.value
  }

  predicate MayAct(t: Tables, j: JobId, g: nat, check: real, now: real) {
    Runs(t, j, g) && LeaseLasts(t, j, check) && check >= 0.0 && now >= 0.0
  }

  lemma RunningAttemptHasItsRow(t: Tables, j: JobId, g: nat)
    requires Inv(t) && Runs(t, j, g)
    ensures AttemptKey(j, g) in t.attempts && t.attempts[AttemptKey(j, g)].finishedAt.None?
  {
    assert JobRow(t, j) && Row(t, j, g);
  }

  /** The owner extends its lease, exactly while it lasts. */
  lemma HeartbeatExactly(t: Tables, j: JobId, g: nat, check: real, now: real)
    requires Inv(t)
    ensures Heartbeat(t, j, g, check, now).Success? <==> MayAct(t, j, g, check, now)
    ensures MayAct(t, j, g, check, now) ==>
              Heartbeat(t, j, g, check, now).value
              == t.(jobs := t.jobs[j := t.jobs[j].(leaseUntil := Some(now + 60.0), updatedAt := now)])
    ensures Heartbeat(t, j, g, check, now).Failure? ==>
              Heartbeat(t, j, g, check, now).error in {LeaseLost, BadClock}
  {
  }

  /** The owner moves on to analysis with what it collected, exactly while its lease lasts. */
  lemma CheckpointExactly(t: Tables, j: JobId, g: nat, digest: string, check: real, now: real)
    requires Inv(t)
    ensures Checkpoint(t, j, g, digest, check, now).Success? <==> MayAct(t, j, g, check, now)
    ensures MayAct(t, j, g, check, now) ==>
              var u := Checkpoint(t, j, g, digest, check, now).value; var k := AttemptKey(j, g);
              && OnlyTheAttempt(t, u, j, g) && k in t.attempts
              && u.jobs[j] == t.jobs[j].(state := Analyzing, snapshotHash := Some(digest), updatedAt := now)
              && u.attempts[k] == t.attempts[k].(state := Analyzing)
  {
    if Runs(t, j, g) { RunningAttemptHasItsRow(t, j, g); }
  }

  /** A published end: both the job and its attempt have the status, and no reason and no lease are left. */
  ghost predicate PublishedAs(t: Tables, u: Tables, j: JobId, g: nat, status: State, report: Reference, now: real) {
    && j in t.jobs && AttemptKey(j, g) in t.attempts && OnlyTheAttempt(t, u, j, g)
    && u.jobs[j] == t.jobs[j].(state := status, leaseUntil := None, updatedAt := now, report := Some(report),
                               reason := None)
    && u.attempts[AttemptKey(j, g)] == t.attempts[AttemptKey(j, g)].(state := status, finishedAt := Some(now))
  }

  /** The owner publishes a completed or partial report, exactly while its lease lasts. */
  lemma FinishedExactly(t: Tables, j: JobId, g: nat, status: State, report: Reference, check: real, now: real)
    requires Inv(t)
    ensures var r := FinishOwned(t, j, g, status, report, check, now);
            && (r.Success? <==> MayAct(t, j, g, check, now) && (status.Completed? || status.Partial?))
            && (r.Success? ==> PublishedAs(t, r.value, j, g, status, report, now))
  {
    if Runs(t, j, g) { RunningAttemptHasItsRow(t, j, g); }
  }

  /** Recovery publishes a report that was saved, exactly once the lease of the attempt that runs is over. */
  lemma RecoveredExactly(t: Tables, j: JobId, g: nat, status: State, report: Reference, check: real, now: real)
    requires Inv(t)
    ensures var u := Step(t, OpFinishRecovered(j, g, status, report, check, now));
            if Runs(t, j, g) && !LeaseLasts(t, j, check) && check >= 0.0 && now >= 0.0
               && (status.Completed? || status.Partial?)
            then PublishedAs(t, u, j, g, status, report, now)
            else u == t
  {
    if Runs(t, j, g) { RunningAttemptHasItsRow(t, j, g); }
  }

  // ---- cancelling and deleting ----

  /** Cancelling ends a job exactly while it waits or runs, and with it the row of its last attempt, if it had one. */
  lemma CancelledExactly(t: Tables, j: JobId, now: real)
    requires Inv(t)
    ensures var u := Step(t, OpCancel(j, now)); var live := j in Waits(t) && now >= 0.0;
            if !live then u == t
            else
              var g := t.jobs[j].generation; var k := AttemptKey(j, g);
              && OnlyTheAttempt(t, u, j, g)
              && u.jobs[j] == t.jobs[j].(state := Cancelled, reason := Some(OperatorCancelled), leaseUntil := None,
                                         updatedAt := now)
              && (k in t.attempts <==> g >= 1)
              && (k in t.attempts ==>
                    u.attempts[k] == t.attempts[k].(state := Cancelled, finishedAt := Some(now),
                                                    reason := Some(OperatorCancelled)))
    ensures Cancel(t, j, now).Failure? <==> j !in t.jobs || (j in Waits(t) && now < 0.0)
  {
    if j in t.jobs {
      assert JobRow(t, j);
      assert Row(t, j, t.jobs[j].generation) <==> AttemptKey(j, t.jobs[j].generation) in t.attempts;
    }
  }

  const WEEK: real := 7.0 * 86400.0

  /** Deletion is decided exactly for an ended job a week after its submission, and then changes nothing else. */
  lemma PurgePlannedExactly(t: Tables, j: JobId, now: real)
    requires Inv(t)
    ensures var u := Step(t, OpPlanPurge(j, now));
            if j in t.jobs && j !in Waits(t) && j !in t.purges && now >= t.jobs[j].createdAt + WEEK
            then u == t.(purges := t.purges[j := Purge(t.jobs[j].createdAt, t.jobs[j].createdAt + WEEK, None)])
            else u == t
  {
    if j in t.jobs { assert JobRow(t, j); }
  }

  /** Deletion is carried out exactly once it was decided: the job and its attempts go, its key stays used. */
  lemma DeletedExactly(t: Tables, j: JobId, now: real)
    requires Inv(t)
    ensures var u := Step(t, OpDeletePurged(j, now));
            if j in t.jobs && j in t.purges && now >= 0.0
            then
              && u.episodes == t.episodes && j !in u.jobs && j in u.purges && u.purges.Keys == t.purges.Keys
              && (forall i :: i in t.jobs && i != j ==> i in u.jobs && u.jobs[i] == t.jobs[i])
              && (forall i :: i in u.jobs ==> i in t.jobs)
              && (forall k :: k in u.attempts <==> k in t.attempts && k.job != j)
              && (forall k :: k in u.attempts ==> u.attempts[k] == t.attempts[k])
              && (forall i :: i in t.purges && i != j ==> u.purges[i] == t.purges[i])
              && u.purges[j] == t.purges[j].(completedAt := Some(now))
            else u == t
  {
  }
}
