/**
 The lock can be taken: exactly when a client gets past the checks of acquire, what its write then does,
 and that a lease given back is free again as soon as its cooldown is over.
 */
module LabLeaseProgress {
  import opened Wrappers
  import opened LabLease
  import opened LabLeaseLaws

  /** Absent, or the lab's own, held by nobody, and with no moment ahead of the reading. */
  predicate Available(server: Option<Lease>, now: real) {
    server.Some? ==>
      && server.value.scoped && server.value.holder == None
      && (server.value.notBefore.Some? ==> server.value.notBefore.value <= now)
  }

  /** An idle client's acquire leads to a write exactly when the lease is free at its reading. */
  lemma FreeLeaseCanBeAcquired(w: World, h: Holder, now: real)
    requires ClientOf(w, h).waiting.None?
    ensures ClientOf(Step(w, Acquire(h, now)), h).waiting.Some? <==> Available(w.server, now)
    ensures Step(w, Acquire(h, now)).server == w.server
  {
  }

  /** The lease as its new holder has it: its identity and its cooldown stay. */
  predicate TakenBy(before: Option<Lease>, after: Option<Lease>, h: Holder, now: real) {
    && after.Some? && after.value.holder == Some(h) && after.value.acquired == Some(now)
    && (before.Some? ==> after.value.uid == before.value.uid && after.value.notBefore == before.value.notBefore)
  }

  /** The write arrives and is heard while the server is as it was read: its client is inside. */
  lemma HeardAcquireEnters(w: World, h: Holder, now: real, es: seq<Event>)
    requires Inv(w) && ClientOf(w, h).waiting.None? && Available(w.server, now)
    requires var v := Step(w, Acquire(h, now)); var u := Run(v, es);
             u.server == w.server && ClientOf(u, h).waiting == ClientOf(v, h).waiting
    ensures var v := Step(w, Acquire(h, now)); ClientOf(v, h).waiting.Some?
    ensures var v := Step(w, Acquire(h, now)); var u := Step(Run(v, es), Arrive(ClientOf(v, h).waiting.value, true));
            TakenBy(w.server, u.server, h, now) && Inside(u, h) && ClientOf(u, h).uid == Some(u.server.value.uid)
  {
    var v := Step(w, Acquire(h, now));
    StepKeepsInv(w, Acquire(h, now));
    RunKeepsInv(v, es);
  }

  /** What `h` writes when it gives back the lease after a started scenario. */
  function GivenBack(w: World, h: Holder, now: real): Write
    requires w.server.Some?
  {
    Free(h, w.server.value, now + COOLDOWN)
  }

  /**
   A lease given back after a started scenario, at reading `now`, heard or not: from 305 seconds later on, and
   not before, any idle client that finds it so gets past the checks, and is inside once its write is heard.
   */
  lemma CooledDownLeaseCanBeTaken(w: World, h: Holder, now: real, heard: bool, es: seq<Event>, k: Holder, later: real)
    requires Inv(w) && w.server.Some? && w.server.value.scoped && w.server.value.holder == Some(h)
    requires ClientOf(w, h).uid == Some(w.server.value.uid) && ClientOf(w, h).waiting.None?
    requires var u := Step(Step(w, Release(h, true, true, now)), Arrive(GivenBack(w, h, now), heard));
             Run(u, es).server == u.server && ClientOf(Run(u, es), k).waiting.None?
    ensures var u := Step(Step(w, Release(h, true, true, now)), Arrive(GivenBack(w, h, now), heard));
            var v := Step(Run(u, es), Acquire(k, later));
            && (ClientOf(v, k).waiting.Some? <==> later >= now + 305.0)
            && (later >= now + 305.0 ==> Inside(Step(v, Arrive(ClientOf(v, k).waiting.value, true)), k))
  {
    var r, a := Release(h, true, true, now), Arrive(GivenBack(w, h, now), heard);
    var v := Step(w, r);
    assert ClientOf(v, h).waiting == Some(GivenBack(w, h, now));
    StepKeepsInv(w, r);
    StepKeepsInv(v, a);
    var u := Step(v, a);
    assert u.server == Some(Stored(GivenBack(w, h, now), v.next));
    RunKeepsInv(u, es);
    FreeLeaseCanBeAcquired(Run(u, es), k, later);
    if later >= now + 305.0 { HeardAcquireEnters(Run(u, es), k, later, []); }
  }

  /** After a scenario that never started there is nothing to wait for. */
  lemma UnstartedReleaseNeedsNoWait(w: World, h: Holder, now: real, heard: bool, k: Holder, later: real)
    requires w.server.Some? && w.server.value.scoped && w.server.value.holder == Some(h) && now <= later
    requires ClientOf(w, h).uid == Some(w.server.value.uid) && ClientOf(w, h).waiting.None?
    ensures var v := Step(w, Release(h, true, false, now)); ClientOf(v, h).waiting.Some?
    ensures var v := Step(w, Release(h, true, false, now));
            var u := Step(v, Arrive(ClientOf(v, h).waiting.value, heard)); Available(u.server, later)
  {
  }

  /**
   Nothing but the verified recovery of the client that took this very lease and still holds it gives it back,
   and then it is free from the stated moment on.
   */
  lemma OnlyTheRecoveredHolderReleases(h: Holder, uid: Option<nat>, verified: bool, started: bool,
                                       current: Option<Lease>, now: real, next: nat, later: real)
    ensures var r := PlanRelease(h, uid, verified, started, current, now);
            && (r.Success? <==> verified && current.Some? && current.value.scoped && uid == Some(current.value.uid)
                                && current.value.holder == Some(h))
            && (r.Success? ==>
                  && Fits(current, r.value) && Stored(r.value, next).uid == current.value.uid
                  && (Available(Some(Stored(r.value, next)), later) <==> later >= if started then now + 305.0 else now))
  {
  }
}
