/**
 The queue as the program has it: an object over four tables, each method one transaction.  Every
 method is proved to commit exactly the transaction of module JobQueue and to keep its invariant.
 */
module JobQueueStore {
  import opened Wrappers
  import opened Q = JobQueue
  import opened Laws = JobQueueLaws

  class JobQueue {
    var episodes: map<EpisodeKey, JobId>
    var jobs: map<JobId, Job>
    var attempts: map<AttemptKey, Attempt>
    var purges: map<JobId, Purge>

    ghost function View(): Tables
      reads this
    {
      Tables(episodes, jobs, attempts, purges)
    }

    ghost predicate Valid()
      reads this
    {
      Inv(View())
    }

    constructor ()
      ensures Valid() && View() == EMPTY
    {
      episodes, jobs, attempts, purges := map[], map[], map[], map[];
      new;
      EmptyInv();
    }

    /** The end of a transaction that others prepared on a copy of the tables. */
    method Commit(t: Tables)
      requires Inv(t)
      modifies this
      ensures Valid() && View() == t
    {
      episodes, jobs, attempts, purges := t.episodes, t.jobs, t.attempts, t.purges;
    }

    method Submit(key: EpisodeKey, fingerprint: Fingerprint, payload: Payload, now: real, uuid: JobId)
      returns (r: Result<(JobId, bool), Error>)
      requires Valid()
      modifies this
      ensures Valid() && KeysUnique(old(jobs))
      ensures match Q.Submit(old(View()), key, fingerprint, payload, now, uuid)
              case Success((u, j, duplicate)) => View() == u && r == Success((j, duplicate))
              case Failure(e) => View() == old(View()) && r == Failure(e)
    {
      InvHasUniqueKeys(View());
      SubmitKeepsInv(View(), key, fingerprint, payload, now, uuid);
      if key in episodes && episodes[key] in purges {
        return Failure(PurgedKey);
      }
      var row := JobWithKey(jobs, key);
      if row.Some? {
        if jobs[row.value].fingerprint != fingerprint {
          return Failure(FingerprintConflict);
        }
        return Success((row.value, true));
      }
      if |WaitingJobs(jobs)| >= MAX_WAITING {
        return Failure(QueueFull);
      }
      if key in episodes || uuid in episodes.Values || uuid in jobs {
        return Failure(ConstraintViolated);
      }
      episodes := episodes[key := uuid];
      jobs := jobs[uuid := Job(key, fingerprint, payload, Queued, 0, 0, None, now, now, now, None, None, None)];
      r := Success((uuid, false));
    }

    method Claim(now: real) returns (r: Result<Option<JobId>, Error>)
      requires Valid()
      modifies this
      ensures Valid()
      ensures match Q.Claim(old(View()), now)
              case Success((u, j)) => View() == u && r == Success(j)
              case Failure(e) => View() == old(View()) && r == Failure(e)
    {
      ClaimKeepsInv(View(), now);
      if ActiveJobs(jobs) != {} {
        return Success(None);
      }
      if now < 0.0 {
        return Failure(BadClock);
      }
      var ready := ReadyJobs(jobs, now);
      if ready == {} {
        return Success(None);
      }
      var j := Oldest(jobs, ready);
      var generation := jobs[j].generation + 1;
      if AttemptKey(j, generation) in attempts {
        return Failure(ConstraintViolated);
      }
      jobs := jobs[j := jobs[j].(state := Collecting, generation := generation, attempts := jobs[j].attempts + 1,
                                 leaseUntil := Some(now + LEASE_SECONDS), updatedAt := now, reason := None)];
      attempts := attempts[AttemptKey(j, generation) :=
        Attempt(if generation == 1 then None else Some(generation - 1), Collecting, now, None, None)];
      r := Success(Some(j));
    }

    method Heartbeat(j: JobId, g: nat, check: real, now: real) returns (r: Result<(), Error>)
      requires Valid()
      modifies this`jobs
      ensures Valid() && View() == Committed(old(View()), Q.Heartbeat(old(View()), j, g, check, now))
      ensures r.Failure? <==> Q.Heartbeat(old(View()), j, g, check, now).Failure?
      ensures r.Failure? ==> r.error == Q.Heartbeat(old(View()), j, g, check, now).error
    {
      HeartbeatKeepsInv(View(), j, g, check, now);
      var refused := AssertOwner(Tables(episodes, jobs, attempts, purges), j, g, check);
      if refused.Some? {
        return Failure(refused.value);
      }
      if now < 0.0 {
        return Failure(BadClock);
      }
      jobs := jobs[j := jobs[j].(leaseUntil := Some(now + LEASE_SECONDS), updatedAt := now)];
      r := Success(());
    }

    method Checkpoint(j: JobId, g: nat, digest: string, check: real, now: real) returns (r: Result<(), Error>)
      requires Valid()
      modifies this`jobs, this`attempts
      ensures Valid() && View() == Committed(old(View()), Q.Checkpoint(old(View()), j, g, digest, check, now))
      ensures r.Failure? <==> Q.Checkpoint(old(View()), j, g, digest, check, now).Failure?
      ensures r.Failure? ==> r.error == Q.Checkpoint(old(View()), j, g, digest, check, now).error
    {
      CheckpointKeepsInv(View(), j, g, digest, check, now);
      var refused := AssertOwner(Tables(episodes, jobs, attempts, purges), j, g, check);
      if refused.Some? {
        return Failure(refused.value);
      }
      if now < 0.0 {
        return Failure(BadClock);
      }
      jobs := jobs[j := jobs[j].(state := Analyzing, snapshotHash := Some(digest), updatedAt := now)];
      var k := AttemptKey(j, g);
      if k in attempts {
        attempts := attempts[k := attempts[k].(state := Analyzing)];
      }
      r := Success(());
    }

    method Finish(j: JobId, g: nat, status: State, report: Reference, check: real, now: real)
      returns (r: Result<(), Error>)
      requires Valid()
      modifies this`jobs, this`attempts
      ensures Valid() && View() == Committed(old(View()), FinishOwned(old(View()), j, g, status, report, check, now))
      ensures r.Failure? <==> FinishOwned(old(View()), j, g, status, report, check, now).Failure?
      ensures r.Failure? ==> r.error == FinishOwned(old(View()), j, g, status, report, check, now).error
    {
      var refused := AssertOwner(Tables(episodes, jobs, attempts, purges), j, g, check);
      if refused.Some? {
        return Failure(refused.value);
      }
      FinishKeepsInv(View(), j, g, status, report, now);
      if !status.Published() {
        return Failure(NotPublishable);
      }
      if now < 0.0 {
        return Failure(BadClock);
      }
      jobs := jobs[j := jobs[j].(state := status, leaseUntil := None, updatedAt := now,
                                 report := Some(report), reason := None)];
      var k := AttemptKey(j, g);
      if k in attempts {
        attempts := attempts[k := attempts[k].(state := status, finishedAt := Some(now))];
      }
      r := Success(());
    }

    method Fail(j: JobId, g: nat, reason: Reason, recovery: bool, review: bool, check: real, now: real)
      returns (r: Result<(), Error>)
      requires Valid() && reason != OperatorCancelled
      modifies this`jobs, this`attempts
      ensures Valid() && View() == Committed(old(View()),
                                             Q.Fail(old(View()), j, g, reason, recovery, review, check, now))
      ensures r.Failure? <==> Q.Fail(old(View()), j, g, reason, recovery, review, check, now).Failure?
      ensures r.Failure? ==> r.error == Q.Fail(old(View()), j, g, reason, recovery, review, check, now).error
    {
      FailKeepsInv(View(), j, g, reason, recovery, review, check, now);
      if j !in jobs {
        return Failure(NotFound);
      }
      var row := jobs[j];
      if row.generation != g || !row.state.Active() {
        return Success(());
      }
      if check < 0.0 || now < 0.0 {
        return Failure(BadClock);
      }
      if recovery {
        if row.leaseUntil.Some? && row.leaseUntil.value > check {
          return Failure(LeaseLost);
        }
      } else {
        var refused := AssertOwner(Tables(episodes, jobs, attempts, purges), j, g, check);
        if refused.Some? {
          return Failure(refused.value);
        }
      }
      var state := if review then NeedsReview else if row.attempts < MAX_ATTEMPTS then Queued else State.Failed;
      jobs := jobs[j := row.(state := state, reason := Some(reason), leaseUntil := None,
                             availableAt := now + Backoff(row.attempts), updatedAt := now)];
      attempts := SetAttempt(attempts, AttemptKey(j, g), State.Failed, Some(now), Some(reason));
      r := Success(());
    }

    method Cancel(j: JobId, now: real) returns (r: Result<(), Error>)
      requires Valid()
      modifies this`jobs, this`attempts
      ensures Valid() && View() == Committed(old(View()), Q.Cancel(old(View()), j, now))
      ensures r.Failure? <==> Q.Cancel(old(View()), j, now).Failure?
      ensures r.Failure? ==> r.error == Q.Cancel(old(View()), j, now).error
    {
      CancelKeepsInv(View(), j, now);
      if j !in jobs {
        return Failure(NotFound);
      }
      var row := jobs[j];
      if row.state.Queued? || row.state.Active() {
        if now < 0.0 {
          return Failure(BadClock);
        }
        jobs := jobs[j := row.(state := Cancelled, reason := Some(OperatorCancelled),
                               leaseUntil := None, updatedAt := now)];
        attempts := SetAttempt(attempts, AttemptKey(j, row.generation),
                               Cancelled, Some(now), Some(OperatorCancelled));
      }
      r := Success(());
    }

    /** Jobs whose lease has run out, the work list of recovery: at most one. */
    method Expired(now: real) returns (r: set<JobId>)
      requires Valid()
      ensures forall j :: j in r <==> j in jobs && jobs[j].state.Active() && !Leased(View(), j, now)
      ensures |r| <= 1
    {
      r := set j | j in jobs && jobs[j].state.Active() && jobs[j].leaseUntil.Some? && jobs[j].leaseUntil.value <= now;
      forall j | j in jobs && jobs[j].state.Active() ensures jobs[j].leaseUntil.Some? {
        assert JobRow(View(), j);
      }
      if r != {} {
        var j :| j in r;
        assert forall i | i in r :: i in ActiveJobs(jobs);
        assert r == {j};
      }
    }
  }
}
