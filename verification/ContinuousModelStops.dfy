/**
 What stopping a campaign achieves: from then on, in every run, none of its items is reserved, nothing is
 delivered for it and nobody can approve it, and nothing else changes.
 */
module ContinuousModelStops {
  import opened Wrappers
  import opened ContinuousModel
  import opened ContinuousModelLaws

  /** The campaign's id was given away, and no stored campaign of that id is in any state but stopped. */
  predicate Halted(w: World, c: CampaignId) {
    c in w.used && (c in w.t.campaigns ==> w.t.campaigns[c].state.Stopped?)
  }

  lemma HaltHalts(w: World, c: CampaignId, now: real)
    requires c in w.used
    ensures Halted(Step(w, Halt(c, now)), c)
  {
  }

  lemma HaltedRefuses(w: World, c: CampaignId, id: OutboxId, code: Code, transport: Transport, now: real)
    requires Formed(w) && Halted(w, c) && id.campaign == c
    ensures Reserve(w.t, code, id, transport, now).Failure?
  {
    if id in w.t.outbox { assert RowOk(w, id); }
  }

  /** Other reservations may go on; none is for the campaign. */
  predicate NoneFor(was: seq<Attempt>, attempts: seq<Attempt>, c: CampaignId) {
    && |was| <= |attempts| && attempts[..|was|] == was
    && forall k :: |was| <= k < |attempts| ==> attempts[k].id.campaign != c
  }

  lemma StepStaysHalted(w: World, e: Event, c: CampaignId)
    requires Formed(w) && Possible(w, e) && Halted(w, c)
    ensures Halted(Step(w, e), c) && NoneFor(w.attempts, Step(w, e).attempts, c)
  {
    if e.Process? && e.item.campaign == c { HaltedRefuses(w, c, e.item, e.code, e.transport, e.now); }
  }

  lemma {:induction false} RunStaysHalted(w: World, es: seq<Event>, c: CampaignId)
    requires Formed(w) && RunPossible(w, es) && Halted(w, c)
    ensures Formed(Run(w, es)) && Halted(Run(w, es), c) && NoneFor(w.attempts, Run(w, es).attempts, c)
    decreases |es|
  {
    if es != [] {
      StepStaysHalted(w, es[0], c);
      StepKeepsFormed(w, es[0]);
      RunStaysHalted(Step(w, es[0]), es[1..], c);
    }
  }

  /** What nobody can do any more, whatever is brought along and whenever. */
  ghost predicate OutOfService(t: Tables, c: CampaignId) {
    && (forall code, id: OutboxId, transport, now {:trigger Reserve(t, code, id, transport, now)} ::
          id.campaign == c || (id in t.outbox && t.outbox[id].campaign == c) ==>
            Reserve(t, code, id, transport, now).Failure?)
    && (forall code, q: Request, now {:trigger Enqueue(t, code, q, now)} ::
          q.campaign == c ==> Enqueue(t, code, q, now) == Failure(CampaignUnavailable))
    && (forall code, q: Request, now {:trigger EnqueueSubmission(t, code, q, now)} ::
          q.campaign == c ==> EnqueueSubmission(t, code, q, now).Failure?)
    && (forall hash, actor, now {:trigger ApproveMock(t, c, hash, actor, now)} ::
          ApproveMock(t, c, hash, actor, now).Failure?)
    && (forall hash, actor, off, known, now {:trigger ApproveLive(t, c, hash, actor, off, known, now)} ::
          ApproveLive(t, c, hash, actor, off, known, now).Failure?)
  }

  lemma HaltedIsOutOfService(w: World, c: CampaignId)
    requires Formed(w) && Halted(w, c)
    ensures OutOfService(w.t, c)
  {
    forall code, id: OutboxId, transport, now {:trigger Reserve(w.t, code, id, transport, now)} |
      id.campaign == c || (id in w.t.outbox && w.t.outbox[id].campaign == c)
      ensures Reserve(w.t, code, id, transport, now).Failure? {
      if id in w.t.outbox { assert RowOk(w, id); }
      HaltedRefuses(w, c, id, code, transport, now);
    }
  }

  /**
   Once a campaign was stopped, at every later moment of every possible run, prunes and approvals included: it is
   out of service, and whatever was reserved since is not for it.
   */
  lemma StoppedIsForEver(before: seq<Event>, c: CampaignId, now: real, after: seq<Event>)
    requires RunPossible(START, before) && c in Run(START, before).t.campaigns
    requires RunPossible(Step(Run(START, before), Halt(c, now)), after)
    ensures var w := Run(START, before); var v := Run(Step(w, Halt(c, now)), after);
            OutOfService(v.t, c) && NoneFor(w.attempts, v.attempts, c)
  {
    var w := Run(START, before);
    RunKeepsApprovals(START, before);
    assert CampaignOk(w, c);
    HaltHalts(w, c, now);
    StepKeepsFormed(w, Halt(c, now));
    RunStaysHalted(Step(w, Halt(c, now)), after, c);
    HaltedIsOutOfService(Run(Step(w, Halt(c, now)), after), c);
  }

  /** A stop changes the state of that one campaign: no other campaign, no approval, row or budget. */
  lemma StopChangesOneState(t: Tables, c: CampaignId, d: CampaignId)
    ensures var u := Stop(t, c);
            && u.outbox == t.outbox && u.budget == t.budget && u.approvals == t.approvals && u.lastAt == t.lastAt
            && u.campaigns.Keys == t.campaigns.Keys
            && (d in t.campaigns ==>
                  && CampaignFades(t.campaigns[d], u.campaigns[d]) && u.campaigns[d].actor == t.campaigns[d].actor
                  && (d != c ==> u.campaigns[d] == t.campaigns[d]))
  {
  }
}
