/**
 Runs whose clock readings never go back.  They use up none of the slack, so everything said of runs
 within it holds of them; and they keep the rows of active campaigns whole.
 */
module ContinuousModelClock {
  import opened Wrappers
  import opened ContinuousModel
  import opened ContinuousModelLaws

  predicate Allowed(w: World, e: Event) { Possible(w, e) && (!e.Send? && !e.Crash? ==> w.clock <= e.now) }

  predicate RunAllowed(w: World, es: seq<Event>)
    decreases |es|
  {
    es == [] || (Allowed(w, es[0]) && RunAllowed(Step(w, es[0]), es[1..]))
  }

  const PROMPT := Slack(0.0, 0.0)

  predicate CampaignTimely(w: World, c: CampaignId)
    requires c in w.t.campaigns
  {
    w.t.campaigns[c].created <= w.clock
  }

  predicate RowTimely(w: World, i: OutboxId)
    requires i in w.t.outbox
  {
    var r := w.t.outbox[i];
    r.created <= w.clock && (r.view.None? ==> r.created < w.clock - BODY_SECONDS)
  }

  predicate Timely(w: World) {
    && (forall c {:trigger CampaignTimely(w, c)} :: c in w.t.campaigns ==> CampaignTimely(w, c))
    && (forall i {:trigger RowTimely(w, i)} :: i in w.t.outbox ==> RowTimely(w, i))
    && w.pruned <= w.clock && (w.t.lastAt.Some? ==> w.t.lastAt.value <= w.clock)
  }

  /** Only a prune erases bodies, and only those a week old. */
  lemma ErasureIsOld(t: Tables, t2: Tables, now: real)
    requires ContinuousModel.Prune(t, now) == Success(t2)
    ensures forall i :: i in t2.outbox && i in t.outbox && t2.outbox[i].view.None? ==>
              t.outbox[i].view.None? || t.outbox[i].created < now - BODY_SECONDS
  {
  }

  lemma OthersKeepBodies(w: World, e: Event)
    requires RowsOk(w) && Fading(e) && !e.Prune?
    ensures forall i :: i in Step(w, e).t.outbox ==>
              i in w.t.outbox && Step(w, e).t.outbox[i].view == w.t.outbox[i].view
  {
  }

  lemma FadingKeepsTimely(w: World, e: Event)
    requires Formed(w) && Timely(w) && Allowed(w, e) && Fading(e)
    ensures Timely(Step(w, e))
  {
    var w2 := Step(w, e);
    FadingStepFades(w, e);
    if e.Prune? {
      if ContinuousModel.Prune(w.t, e.now).Success? { ErasureIsOld(w.t, w2.t, e.now); }
    } else {
      OthersKeepBodies(w, e);
    }
    forall c | c in w2.t.campaigns ensures CampaignTimely(w2, c) {
      assert CampaignTimely(w, c);
    }
    forall i | i in w2.t.outbox ensures RowTimely(w2, i) {
      assert RowTimely(w, i);
    }
  }

  lemma AddingKeepsTimely(w: World, e: Event)
    requires Formed(w) && Timely(w) && Allowed(w, e) && !Fading(e)
    ensures Timely(Step(w, e))
  {
    var w2 := Step(w, e);
    if e.Deliver? || e.Submit? { DeliveryInserts(w, e); }
    forall c | c in w2.t.campaigns ensures CampaignTimely(w2, c) {
      if c in w.t.campaigns { assert CampaignTimely(w, c); }
    }
    forall i | i in w2.t.outbox ensures RowTimely(w2, i) {
      if i in w.t.outbox { assert RowTimely(w, i); }
    }
  }

  lemma AllowedIsPrompt(w: World, e: Event)
    requires Timely(w) && Allowed(w, e)
    ensures InTime(w, e, PROMPT)
  {
    if (e.Deliver? || e.Submit?) && e.q.campaign in w.t.campaigns { assert CampaignTimely(w, e.q.campaign); }
  }

  lemma {:induction false} RunIsPrompt(w: World, es: seq<Event>)
    requires Formed(w) && Timely(w) && RunAllowed(w, es)
    ensures RunWithin(w, es, PROMPT) && Formed(Run(w, es)) && Timely(Run(w, es))
    decreases |es|
  {
    if es != [] {
      AllowedIsPrompt(w, es[0]);
      StepKeepsFormed(w, es[0]);
      if Fading(es[0]) { FadingKeepsTimely(w, es[0]); } else { AddingKeepsTimely(w, es[0]); }
      RunIsPrompt(Step(w, es[0]), es[1..]);
    }
  }

  /** A ledger that some run with readings that never go back leads to. */
  ghost predicate Monotone(w: World) {
    exists es {:trigger Run(START, es)} :: RunAllowed(START, es) && w == Run(START, es)
  }

  /** Such a run is within any slack, so at most once, ten for each campaign and a dollar a day hold of it. */
  lemma MonotoneIsTimely(w: World)
    requires Monotone(w)
    ensures Reachable(w, PROMPT) && Tight(PROMPT) && Formed(w) && Timely(w)
  {
    var es :| RunAllowed(START, es) && w == Run(START, es);
    RunIsPrompt(START, es);
  }

  /** Neither the integrity check nor the clock check ever fires on a row of an active campaign. */
  lemma StoredRowsStayIntact(w: World, id: OutboxId, code: Code, transport: Transport, now: real)
    requires Monotone(w) && w.clock <= now
    ensures Reserve(w.t, code, id, transport, now) != Failure(IntegrityRejected)
    ensures Reserve(w.t, code, id, transport, now) != Failure(ClockMovedBackwards)
  {
    MonotoneIsTimely(w);
    ReachableKeepsInv(w, PROMPT);
    if id in w.t.outbox && Active(w.t, w.t.outbox[id].campaign, now) {
      assert RowOk(w, id) && RowTimely(w, id) && DatedOk(w, PROMPT, id) && CampaignOk(w, w.t.outbox[id].campaign);
    }
  }

  // ---- the seven-day erasure, and the result it misses ----

  predicate Erased(t: Tables, now: real) {
    forall i :: i in t.outbox && t.outbox[i].created < now - BODY_SECONDS ==>
      t.outbox[i].view.None? && t.outbox[i].rules.None? && t.outbox[i].result.None?
  }

  /** A result stored after its body was erased. */
  predicate LateResult(item: Item) { item.view.None? && item.result.Some? }

  /** Pruning leaves no week-old body behind exactly when no result arrived after an earlier erasure. */
  lemma ErasureMissesExactlyLateResults(w: World, now: real, t2: Tables)
    requires Monotone(w) && w.clock <= now && ContinuousModel.Prune(w.t, now) == Success(t2)
    ensures Erased(t2, now) <==>
            forall i :: i in w.t.outbox && w.t.outbox[i].created >= now - LEDGER_SECONDS ==> !LateResult(w.t.outbox[i])
  {
    MonotoneIsTimely(w);
    forall i | i in w.t.outbox
      ensures w.t.outbox[i].view.None? ==> w.t.outbox[i].rules.None? && w.t.outbox[i].created < now - BODY_SECONDS {
      assert RowOk(w, i) && RowTimely(w, i);
    }
    ErasureOfRows(w.t, now, t2);
  }

  lemma ErasureOfRows(t: Tables, now: real, t2: Tables)
    requires ContinuousModel.Prune(t, now) == Success(t2)
    requires forall i :: i in t.outbox && t.outbox[i].view.None? ==>
               t.outbox[i].rules.None? && t.outbox[i].created < now - BODY_SECONDS
    ensures Erased(t2, now) <==>
            forall i :: i in t.outbox && t.outbox[i].created >= now - LEDGER_SECONDS ==> !LateResult(t.outbox[i])
  {
    if Erased(t2, now) {
      forall i | i in t.outbox && t.outbox[i].created >= now - LEDGER_SECONDS ensures !LateResult(t.outbox[i]) {
        assert i in t2.outbox && t2.outbox[i] == ContinuousModel.Erase(t.outbox[i], now);
      }
    }
  }
}
