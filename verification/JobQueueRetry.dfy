/**
 A failing attempt is retried: how it ends, that a job put back waits exactly its backoff and can then be
 claimed, and that three attempts are really made.
 */
module JobQueueRetry {
  import opened Wrappers
  import opened JobQueue
  import opened JobQueueLaws

  /** Seconds to wait after the failed attempt `g`: 5, 10 and then 20. */
  function Pause(g: nat): real { if g == 1 then 5.0 else if g == 2 then 10.0 else 20.0 }

  lemma PauseIsBackoff(g: nat)
    requires 1 <= g <= MAX_ATTEMPTS
    ensures Backoff(g) == Pause(g)
  {
    assert Backoff(1) == 5.0 && Backoff(2) == 10.0;
  }

  /** The attempt runs, and whoever fails it may: the owner while the lease lasts, recovery once it is over. */
  predicate MayFail(t: Tables, op: Op)
    requires op.OpFail?
  {
    && op.job in t.jobs && t.jobs[op.job].generation == op.generation
    && (t.jobs[op.job].state.Collecting? || t.jobs[op.job].state.Analyzing?)
    && op.reason != OperatorCancelled && op.check >= 0.0 && op.now >= 0.0
    && t.jobs[op.job].leaseUntil.Some? && (op.recovery <==> t.jobs[op.job].leaseUntil.value <= op.check)
  }

  /** What a failed attempt leaves of its job. */
  predicate FailedInto(was: Job, job: Job, op: Op)
    requires op.OpFail?
  {
    && (if op.review then job.state.NeedsReview?
        else if was.attempts < 3 then job.state.Queued? && job.availableAt == op.now + Pause(was.attempts)
        else job.state.Failed?)
    && job.reason == Some(op.reason) && job.leaseUntil == None && job.updatedAt == op.now
    && job.attempts == was.attempts && job.generation == was.generation && job.payload == was.payload
    && job.key == was.key && job.fingerprint == was.fingerprint && job.createdAt == was.createdAt
    && job.snapshotHash == was.snapshotHash && job.report == was.report
  }

  /** Nothing but the job and the row of that attempt can change. */
  ghost predicate OnlyTheAttempt(t: Tables, u: Tables, j: JobId, g: nat) {
    && u.episodes == t.episodes && u.purges == t.purges && u.attempts.Keys == t.attempts.Keys
    && u.jobs.Keys == t.jobs.Keys && (forall i :: i in t.jobs && i != j ==> u.jobs[i] == t.jobs[i])
    && (forall k :: k in t.attempts && k != AttemptKey(j, g) ==> u.attempts[k] == t.attempts[k])
  }

  /** The row of the failed attempt. */
  predicate FailedRow(was: Attempt, a: Attempt, op: Op)
    requires op.OpFail?
  {
    && a.state.Failed? && a.finishedAt == Some(op.now) && a.reason == Some(op.reason)
    && a.startedAt == was.startedAt && a.parent == was.parent
  }

  lemma RefusedFailure(t: Tables, op: Op)
    requires Inv(t) && op.OpFail? && !MayFail(t, op)
    ensures Step(t, op) == t
  {
    if op.job in t.jobs { assert JobRow(t, op.job); }
  }

  lemma AllowedFailure(t: Tables, op: Op)
    requires Inv(t) && op.OpFail? && MayFail(t, op)
    ensures AttemptKey(op.job, op.generation) in t.attempts && OnlyTheAttempt(t, Step(t, op), op.job, op.generation)
    ensures FailedInto(t.jobs[op.job], Step(t, op).jobs[op.job], op)
    ensures var k := AttemptKey(op.job, op.generation); FailedRow(t.attempts[k], Step(t, op).attempts[k], op)
  {
    assert JobRow(t, op.job);
    assert Row(t, op.job, op.generation);
    PauseIsBackoff(t.jobs[op.job].attempts);
  }

  /**
   An attempt fails exactly if it may, and then: with review its job needs review; without, it is queued again
   after the pause of that attempt if fewer than three were made, and failed at the third.  Nothing else changes.
   */
  lemma FailedAttemptEndsExactly(t: Tables, op: Op)
    requires Inv(t) && op.OpFail?
    ensures Step(t, op) != t <==> MayFail(t, op)
    ensures MayFail(t, op) ==>
              var k := AttemptKey(op.job, op.generation);
              && k in t.attempts && OnlyTheAttempt(t, Step(t, op), op.job, op.generation)
              && FailedInto(t.jobs[op.job], Step(t, op).jobs[op.job], op)
              && FailedRow(t.attempts[k], Step(t, op).attempts[k], op)
  {
    if MayFail(t, op) { AllowedFailure(t, op); } else { RefusedFailure(t, op); }
  }

  // ---- left alone, it waits and is claimed ----

  /** No operation of the run claims the job, and nobody cancels it. */
  ghost predicate LeftAlone(t: Tables, ops: seq<Op>, j: JobId)
    requires Inv(t)
    decreases |ops|
  {
    ops == [] ||
    (&& !ClaimsJob(t, ops[0], j) && !(ops[0].OpCancel? && ops[0].job == j)
     && (StepKeepsInv(t, ops[0]); LeftAlone(Step(t, ops[0]), ops[1..], j)))
  }

  lemma QueuedStays(t: Tables, op: Op, j: JobId)
    requires Inv(t) && j in t.jobs && t.jobs[j].state.Queued? && j !in t.purges
    requires !ClaimsJob(t, op, j) && !(op.OpCancel? && op.job == j)
    ensures j in Step(t, op).jobs && Step(t, op).jobs[j] == t.jobs[j] && j !in Step(t, op).purges
  {
    if op.OpSubmit? {
      InvHasUniqueKeys(t);
    } else if op.OpClaim? {
      UnclaimedStays(t, op.now, j);
    } else {
      UpdateSparesQueued(t, op, j);
    }
  }

  lemma UnclaimedStays(t: Tables, now: real, j: JobId)
    requires Inv(t) && j in t.jobs && !ClaimsJob(t, OpClaim(now), j)
    ensures j in Step(t, OpClaim(now)).jobs && Step(t, OpClaim(now)).jobs[j] == t.jobs[j]
    ensures Step(t, OpClaim(now)).purges == t.purges
  {
  }

  lemma UpdateSparesQueued(t: Tables, op: Op, j: JobId)
    requires j in t.jobs && t.jobs[j].state.Queued? && j !in t.purges
    requires !op.OpSubmit? && !op.OpClaim? && !(op.OpCancel? && op.job == j)
    ensures j in UpdateStep(t, op).jobs && UpdateStep(t, op).jobs[j] == t.jobs[j] && j !in UpdateStep(t, op).purges
  {
  }

  lemma {:induction false} QueuedWaits(t: Tables, ops: seq<Op>, j: JobId)
    requires Inv(t) && j in t.jobs && t.jobs[j].state.Queued? && j !in t.purges && LeftAlone(t, ops, j)
    ensures j in Run(t, ops).jobs && Run(t, ops).jobs[j] == t.jobs[j]
    decreases |ops|
  {
    if ops != [] {
      QueuedStays(t, ops[0], j);
      StepKeepsInv(t, ops[0]);
      QueuedWaits(Step(t, ops[0]), ops[1..], j);
    }
  }

  /** It is its turn: no job is active, and no other one that is due comes first. */
  ghost predicate ItsTurn(t: Tables, j: JobId, now: real)
    requires j in t.jobs
  {
    && (forall i :: i in t.jobs ==> !t.jobs[i].state.Active())
    && (forall i :: i in t.jobs && i != j && t.jobs[i].state.Queued? && t.jobs[i].availableAt <= now ==>
          t.jobs[j].createdAt < t.jobs[i].createdAt || (t.jobs[j].createdAt == t.jobs[i].createdAt && j < i))
  }

  lemma DueJobIsClaimed(t: Tables, j: JobId, now: real)
    requires Inv(t) && j in t.jobs && t.jobs[j].state.Queued? && now >= 0.0 && ItsTurn(t, j, now)
    ensures ClaimsJob(t, OpClaim(now), j) <==> now >= t.jobs[j].availableAt
  {
    assert ActiveJobs(t.jobs) == {};
    if j in ReadyJobs(t.jobs, now) {
      assert JobRow(t, j);
      assert !Row(t, j, t.jobs[j].generation + 1);
      assert Oldest(t.jobs, ReadyJobs(t.jobs, now)) == j;
    }
  }

  /**
   After the first or second failure without review, whatever runs in between as long as it neither claims nor
   cancels the job: a claim whose turn it is takes it exactly from its pause on.
   */
  lemma FailedJobIsRetried(t: Tables, op: Op, ops: seq<Op>, later: real)
    requires Inv(t) && op.OpFail? && MayFail(t, op) && !op.review && t.jobs[op.job].attempts < 3
    requires Inv(Step(t, op)) && LeftAlone(Step(t, op), ops, op.job) && later >= 0.0
    requires op.job in Run(Step(t, op), ops).jobs ==> ItsTurn(Run(Step(t, op), ops), op.job, later)
    ensures var u := Run(Step(t, op), ops);
            && op.job in u.jobs && u.jobs[op.job].attempts == t.jobs[op.job].attempts
            && (ClaimsJob(u, OpClaim(later), op.job) <==> later >= op.now + Pause(t.jobs[op.job].attempts))
  {
    FailedAttemptEndsExactly(t, op);
    var u := Step(t, op);
    assert op.job !in t.purges by { ActiveIsNotPurged(t, op.job); }
    QueuedWaits(u, ops, op.job);
    DueJobIsClaimed(Run(u, ops), op.job, later);
  }

  lemma ActiveIsNotPurged(t: Tables, j: JobId)
    requires Inv(t) && j in t.jobs && t.jobs[j].state.Waiting()
    ensures j !in t.purges
  {
  }

  // ---- every attempt is made ----

  /** The only job of the queue, waiting for its turn. */
  ghost predicate OnlyJob(t: Tables, j: JobId) { Inv(t) && t.jobs.Keys == {j} && t.jobs[j].state.Queued? }

  /** It is claimed, and its attempt fails at once. */
  function Round(j: JobId, g: nat, at: real): seq<Op> {
    [OpClaim(at), OpFail(j, g, CollectionError, false, false, at, at)]
  }

  /** What a claim of it leaves. */
  predicate Claimed(u: Tables, j: JobId, g: nat, at: real) {
    && u.jobs.Keys == {j} && u.jobs[j].state.Collecting? && u.jobs[j].generation == g && u.jobs[j].attempts == g
    && u.jobs[j].leaseUntil == Some(at + 60.0)
  }

  lemma OnlyJobIsClaimed(t: Tables, j: JobId, at: real)
    requires OnlyJob(t, j) && at >= 0.0 && t.jobs[j].availableAt <= at
    ensures ClaimsJob(t, OpClaim(at), j) && t.jobs[j].attempts < 3
    ensures Inv(Step(t, OpClaim(at))) && Claimed(Step(t, OpClaim(at)), j, t.jobs[j].attempts + 1, at)
  {
    assert JobRow(t, j);
    DueJobIsClaimed(t, j, at);
    StepKeepsInv(t, OpClaim(at));
    var ready := ReadyJobs(t.jobs, at);
    assert ready == {j} && Oldest(t.jobs, ready) == j;
  }

  lemma TwoSteps(t: Tables, a: Op, b: Op, j: JobId)
    requires Inv(t) && Inv(Step(t, a))
    ensures Run(t, [a, b]) == Step(Step(t, a), b)
    ensures CountClaims(t, [a, b], j)
            == (if ClaimsJob(t, a, j) then 1 else 0) + (if ClaimsJob(Step(t, a), b, j) then 1 else 0)
  {
    var v := Step(t, a);
    StepKeepsInv(v, b);
    assert [a, b][1..] == [b] && [b][1..] == [];
    assert Run(v, [b]) == Step(v, b);
    assert CountClaims(Step(v, b), [], j) == 0;
  }

  lemma RoundRuns(t: Tables, j: JobId, at: real)
    requires OnlyJob(t, j) && at >= 0.0 && t.jobs[j].availableAt <= at
    ensures var ops := Round(j, t.jobs[j].attempts + 1, at); var u := Run(t, ops);
            && CountClaims(t, ops, j) == 1 && t.jobs[j].attempts < 3 && u.jobs.Keys == {j}
            && u.jobs[j].attempts == t.jobs[j].attempts + 1
            && (if u.jobs[j].attempts < 3
                then u.jobs[j].state.Queued? && u.jobs[j].availableAt == at + Pause(u.jobs[j].attempts)
                else u.jobs[j].state.Failed?)
  {
    OnlyJobIsClaimed(t, j, at);
    var v := Step(t, OpClaim(at));
    var fail := OpFail(j, t.jobs[j].attempts + 1, CollectionError, false, false, at, at);
    FailedAttemptEndsExactly(v, fail);
    TwoSteps(t, OpClaim(at), fail, j);
  }

  lemma {:induction false} ClaimsAdd(t: Tables, a: seq<Op>, b: seq<Op>, j: JobId)
    requires Inv(t)
    ensures Run(t, a + b) == Run(Run(t, a), b)
    ensures CountClaims(t, a + b, j) == CountClaims(t, a, j) + CountClaims(Run(t, a), b, j)
    decreases |a|
  {
    if a == [] {
      assert a + b == b;
    } else {
      StepKeepsInv(t, a[0]);
      assert (a + b)[1..] == a[1..] + b;
      ClaimsAdd(Step(t, a[0]), a[1..], b, j);
    }
  }

  lemma {:induction false} EveryAttemptIsMade(t: Tables, j: JobId, at: real) returns (ops: seq<Op>)
    requires OnlyJob(t, j) && at >= 0.0 && t.jobs[j].availableAt <= at
    ensures t.jobs[j].attempts < 3 && CountClaims(t, ops, j) == 3 - t.jobs[j].attempts
    ensures j in Run(t, ops).jobs && Run(t, ops).jobs[j].state.Failed? && Run(t, ops).jobs[j].attempts == 3
    decreases 3 - t.jobs[j].attempts
  {
    ops := Round(j, t.jobs[j].attempts + 1, at);
    RoundRuns(t, j, at);
    var u := Run(t, ops);
    if u.jobs[j].attempts < 3 {
      var rest := EveryAttemptIsMade(u, j, at + Pause(u.jobs[j].attempts));
      ClaimsAdd(t, ops, rest, j);
      ops := ops + rest;
    }
  }

  /** A run from the empty queue that claims one job three times. */
  lemma ThreeAttemptsAreMade(key: EpisodeKey, fingerprint: Fingerprint, payload: Payload, j: JobId)
    returns (ops: seq<Op>)
    ensures Inv(EMPTY) && CountClaims(EMPTY, ops, j) == 3
    ensures j in Run(EMPTY, ops).jobs && Run(EMPTY, ops).jobs[j].state.Failed?
  {
    EmptyInv();
    InvHasUniqueKeys(EMPTY);
    var submit := OpSubmit(key, fingerprint, payload, 0.0, j);
    var t := Step(EMPTY, submit);
    StepKeepsInv(EMPTY, submit);
    assert WaitingJobs(EMPTY.jobs) == {};
    assert t.jobs.Keys == {j};
    assert [submit][1..] == [] && CountClaims(EMPTY, [submit], j) == 0 && Run(EMPTY, [submit]) == t;
    var rest := EveryAttemptIsMade(t, j, 0.0);
    ClaimsAdd(EMPTY, [submit], rest, j);
    ops := [submit] + rest;
  }
}
