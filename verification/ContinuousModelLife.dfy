/**
 What each operation of the ledger does, over every run and with any clock: exactly when it succeeds, what it
 then leaves, and that it leaves everything else alone.
 */
module ContinuousModelLife {
  import opened Wrappers
  import opened ContinuousModel
  import opened ContinuousModelLaws

  // ---- campaigns ----

  predicate ReadingOk(now: real) { now >= 0.0 && now < 100000000000.0 }

  /** A live plan names its credential, a mock plan has none. */
  predicate PlanIs(plan: Plan, mode: Mode) {
    plan.mode == mode && (if mode.Mock? then plan.credential == None else plan.credential != None)
  }

  /** A stored campaign has a plan of its mode, and its approval row only after it was approved. */
  predicate TermsOk(t: Tables, c: CampaignId)
    requires c in t.campaigns
  {
    PlanIs(t.campaigns[c].binding.plan, t.campaigns[c].binding.plan.mode)
    && (t.campaigns[c].state.Prepared? ==> c !in t.approvals)
  }

  predicate AllTermsOk(w: World) {
    && (forall c {:trigger TermsOk(w.t, c)} :: c in w.t.campaigns ==> TermsOk(w.t, c))
    && (forall c :: c in w.t.approvals ==> c in w.used)
  }

  lemma StepKeepsTerms(w: World, e: Event)
    requires Formed(w) && AllTermsOk(w) && Possible(w, e)
    ensures AllTermsOk(Step(w, e))
  {
    var v := Step(w, e);
    forall c | c in v.t.campaigns ensures TermsOk(v.t, c) {
      if c in w.t.campaigns { assert TermsOk(w.t, c); }
    }
    forall c | c in v.t.approvals ensures c in v.used {
      if c !in w.t.approvals { assert CampaignOk(w, c); }
    }
  }

  lemma {:induction false} RunKeepsTerms(w: World, es: seq<Event>)
    requires Formed(w) && AllTermsOk(w) && RunPossible(w, es)
    ensures Formed(Run(w, es)) && AllTermsOk(Run(w, es))
    decreases |es|
  {
    if es != [] {
      StepKeepsFormed(w, es[0]);
      StepKeepsTerms(w, es[0]);
      RunKeepsTerms(Step(w, es[0]), es[1..]);
    }
  }

  /** Nothing but one campaign and its approval can differ. */
  ghost predicate OnlyCampaign(t: Tables, u: Tables, c: CampaignId) {
    && u.outbox == t.outbox && u.budget == t.budget && u.lastAt == t.lastAt
    && (forall d :: d != c ==> (d in u.campaigns <==> d in t.campaigns) && (d in u.approvals <==> d in t.approvals))
    && (forall d :: d != c && d in t.campaigns ==> u.campaigns[d] == t.campaigns[d])
    && (forall d :: d != c && d in t.approvals ==> u.approvals[d] == t.approvals[d])
  }

  /** A campaign is prepared under a fresh id, for 24 hours, exactly if its plan is one of its mode. */
  lemma PreparedExactly(es: seq<Event>, id: CampaignId, mode: Mode, binding: Binding, now: real)
    requires RunPossible(START, es) && id !in Run(START, es).used
    ensures var w := Run(START, es); var u := Step(w, Prepare(id, mode, binding, now)).t;
            if PlanIs(binding.plan, mode) && ReadingOk(now)
            then OnlyCampaign(w.t, u, id) && id in u.campaigns && id !in u.approvals
                 && u.campaigns[id] == Campaign(binding, Prepared, now, now + 86400.0, None)
            else u == w.t
  {
    var w := Run(START, es);
    RunKeepsTerms(START, es);
    forall c | c in w.t.campaigns ensures c in w.used { assert CampaignOk(w, c); }
  }

  /** Prepared, in its 24 hours, and named with exactly its terms. */
  predicate MayApprove(t: Tables, id: CampaignId, hash: Binding, mode: Mode, now: real) {
    && id in t.campaigns && t.campaigns[id].state.Prepared? && now < t.campaigns[id].created + 86400.0
    && t.campaigns[id].binding == hash && hash.plan.mode == mode && ReadingOk(now)
  }

  /** The campaign is approved by the actor and otherwise as it was. */
  ghost predicate ApprovedBy(t: Tables, u: Tables, id: CampaignId, actor: string) {
    && id in t.campaigns && OnlyCampaign(t, u, id) && id in u.campaigns
    && u.campaigns[id] == t.campaigns[id].(state := Approved, actor := Some(actor))
  }

  lemma MockApprovedExactly(es: seq<Event>, id: CampaignId, hash: Binding, actor: string, now: real)
    requires RunPossible(START, es)
    ensures var w := Run(START, es); var u := Step(w, Event.Mock(id, hash, actor, now)).t;
            if MayApprove(w.t, id, hash, Mode.Mock, now)
            then ApprovedBy(w.t, u, id, actor) && u.approvals == w.t.approvals
            else u == w.t
  {
    var w := Run(START, es);
    RunKeepsTerms(START, es);
    if id in w.t.campaigns { assert CampaignOk(w, id) && TermsOk(w.t, id); }
  }

  /** A live one needs both acknowledgements, and its approval is kept; there never is an earlier one in the way. */
  lemma LiveApprovedExactly(es: seq<Event>, id: CampaignId, hash: Binding, actor: string, off: bool, known: bool,
                            now: real)
    requires RunPossible(START, es)
    ensures var w := Run(START, es); var u := Step(w, Event.Live(id, hash, actor, off, known, now)).t;
            if off && known && MayApprove(w.t, id, hash, Mode.Live, now)
            then ApprovedBy(w.t, u, id, actor) && id in u.approvals
                 && u.approvals[id] == Approval(hash, actor, now, true, true)
            else u == w.t
  {
    var w := Run(START, es);
    RunKeepsTerms(START, es);
    if id in w.t.campaigns { assert CampaignOk(w, id) && TermsOk(w.t, id); }
  }

  // ---- deliveries ----

  predicate CodeIs(code: Code, binding: Binding) {
    && binding.implementation == code.implementation
    && binding.policy in code.prompts && code.prompts[binding.policy] == binding.prompt
  }

  /** The request is for the deployment, configuration, cluster and policy of the campaign. */
  predicate AimsAt(q: Request, binding: Binding) {
    && q.deployment == binding.deployment && q.config == binding.config && q.cluster == binding.cluster
    && q.sources.view.policy == binding.policy
  }

  predicate MayDeliver(t: Tables, code: Code, q: Request, live: bool, now: real) {
    && q.campaign in t.campaigns
    && var m := t.campaigns[q.campaign];
       && CodeIs(code, m.binding) && AimsAt(q, m.binding) && m.binding.plan.mode.Live? == live
       && if live then ReadingOk(now) && m.state.Approved? && m.created <= now < m.created + 86400.0
          else !m.state.Stopped?
  }

  /** The identity of what is delivered, and everything it is bound to. */
  function NameOf(q: Request): OutboxId {
    OutboxId(q.sourceRun, q.sources.bundle, q.sources.view, q.sources.view.policy, q.campaign)
  }

  function TermsOf(q: Request, binding: Binding): Bound {
    Bound(q.sources.view, q.sources, q.sourceRun, q.rulesRef, q.campaign, binding)
  }

  function NewItem(q: Request, binding: Binding, now: real): Item {
    Item(TermsOf(q, binding), q.sources, Some(q.sources.view), Some(RulesOf(q.sources.view)), None, q.sourceRun,
         q.rulesRef, q.campaign, Waiting, None, now, now, None)
  }

  /** Another item of the same source run is there already. */
  predicate RunTaken(t: Tables, q: Request) {
    exists i :: i in t.outbox && t.outbox[i].campaign == q.campaign && t.outbox[i].sourceRun == q.sourceRun
  }

  /**
   What a delivery leaves: one new waiting item; or nothing new, if the same item is there, if another one of its
   source run is there, or if the campaign does not take it.
   */
  ghost predicate Delivered(t: Tables, u: Tables, code: Code, q: Request, live: bool, now: real) {
    if MayDeliver(t, code, q, live, now) && NameOf(q) !in t.outbox && !RunTaken(t, q) && ReadingOk(now)
    then u == t.(outbox := t.outbox[NameOf(q) := NewItem(q, t.campaigns[q.campaign].binding, now)])
    else u == t
  }

  /** The answer: an item delivered again is accepted as it is, exactly if it is bound to the same. */
  ghost predicate Answered(t: Tables, r: Result<(Tables, OutboxId), Error>, code: Code, q: Request, live: bool,
                           now: real) {
    && (r.Success? ==> MayDeliver(t, code, q, live, now) && r.value.1 == NameOf(q) && NameOf(q) in r.value.0.outbox)
    && (MayDeliver(t, code, q, live, now) && NameOf(q) in t.outbox ==>
          if t.outbox[NameOf(q)].bound == TermsOf(q, t.campaigns[q.campaign].binding) then r == Success((t, NameOf(q)))
          else r == Failure(IdentityConflict))
    && (MayDeliver(t, code, q, live, now) && NameOf(q) !in t.outbox && RunTaken(t, q) ==> r == Failure(SourceConflict))
  }

  lemma DeliveredExactly(es: seq<Event>, code: Code, q: Request, now: real)
    requires RunPossible(START, es)
    ensures var w := Run(START, es);
            && Delivered(w.t, Step(w, Deliver(code, q, now)).t, code, q, false, now)
            && Answered(w.t, Enqueue(w.t, code, q, now), code, q, false, now)
  {
    var w := Run(START, es);
    RunKeepsTerms(START, es);
    if q.campaign in w.t.campaigns { assert CampaignOk(w, q.campaign) && TermsOk(w.t, q.campaign); }
    assert SourceTaken(w.t, q) == RunTaken(w.t, q);
  }

  lemma SubmittedExactly(es: seq<Event>, code: Code, q: Request, now: real)
    requires RunPossible(START, es)
    ensures var w := Run(START, es);
            && Delivered(w.t, Step(w, Submit(code, q, now)).t, code, q, true, now)
            && Answered(w.t, EnqueueSubmission(w.t, code, q, now), code, q, true, now)
  {
    var w := Run(START, es);
    RunKeepsTerms(START, es);
    RunKeepsApprovals(START, es);
    if q.campaign in w.t.campaigns {
      assert CampaignOk(w, q.campaign) && TermsOk(w.t, q.campaign) && ApprovedOk(w.t, q.campaign);
    }
    assert SourceTaken(w.t, q) == RunTaken(w.t, q);
  }

  // ---- the paid call ----

  predicate Suits(transport: Transport, binding: Binding) {
    match transport
    case MockTransport => binding.plan.mode.Mock?
    case LiveTransport(image, credential) =>
      binding.plan.mode.Live? && binding.image == Some(image) && binding.plan.credential == Some(credential)
  }

  /** Fewer than ten rows of the campaign are reserved, ten cents are left today, and the clock did not go back. */
  predicate Affordable(t: Tables, c: CampaignId, now: real) {
    && |(set i | i in t.outbox && t.outbox[i].campaign == c && t.outbox[i].reservedDay.Some?)| < 10
    && (Day(now) in t.budget ==> t.budget[Day(now)] <= 90) && (t.lastAt.Some? ==> t.lastAt.value <= now)
  }

  predicate MayPay(t: Tables, code: Code, id: OutboxId, transport: Transport, now: real) {
    && id in t.outbox && t.outbox[id].state.Waiting? && t.outbox[id].view.Some?
    && id.campaign in t.campaigns && ReadingOk(now)
    && var m := t.campaigns[id.campaign];
       && m.state.Approved? && m.created <= now < m.created + 86400.0 && CodeIs(code, m.binding)
       && Suits(transport, m.binding) && Day(now) - 7 <= m.binding.plan.priceDay <= Day(now)
       && Affordable(t, id.campaign, now)
  }

  /** Ten cents of today, and the item is being sent. */
  ghost predicate Paid(t: Tables, u: Tables, id: OutboxId, now: real) {
    && u.campaigns == t.campaigns && u.approvals == t.approvals && u.lastAt == Some(now)
    && u.budget == t.budget[Day(now) := (if Day(now) in t.budget then t.budget[Day(now)] else 0) + 10]
    && id in t.outbox && id in u.outbox && u.outbox == t.outbox[id := u.outbox[id]]
    && u.outbox[id] == t.outbox[id].(state := Sending, reservedDay := Some(Day(now)), updated := now)
  }

  /**
   Over every run and with any clock: a waiting item is reserved exactly if its body is still there, its campaign
   is approved and in its day, code, transport and prices are those of the plan, and both limits leave room.
   */
  lemma PaidExactly(es: seq<Event>, code: Code, id: OutboxId, transport: Transport, now: real)
    requires RunPossible(START, es)
    ensures var w := Run(START, es); var v := Step(w, Process(code, id, transport, now));
            if MayPay(w.t, code, id, transport, now)
            then Paid(w.t, v.t, id, now) && v.attempts == w.attempts + [Attempt(id, now)]
            else v.t == w.t && v.attempts == w.attempts
  {
    var w := Run(START, es);
    RunKeepsTerms(START, es);
    RunKeepsApprovals(START, es);
    if id in w.t.outbox {
      assert RowOk(w, id);
      WaitingBodyIsIntact(w, id);
      var c := w.t.outbox[id].campaign;
      assert CampaignOk(w, c) && TermsOk(w.t, c) && ApprovedOk(w.t, c);
      assert Reserved(w.t, c) == set i | i in w.t.outbox && w.t.outbox[i].campaign == c
        && w.t.outbox[i].reservedDay.Some?;
      RefusedExactly(w.t, code, id, transport, now);
    }
  }

  lemma WaitingBodyIsIntact(w: World, id: OutboxId)
    requires Formed(w) && id in w.t.outbox && w.t.outbox[id].campaign in w.t.campaigns && RowOk(w, id)
    ensures Intact(w.t.outbox[id], w.t.campaigns[w.t.outbox[id].campaign].binding) <==> w.t.outbox[id].view.Some?
  {
  }

  /** On an intact database the checks before a payment are exactly these. */
  lemma RefusedExactly(t: Tables, code: Code, id: OutboxId, transport: Transport, now: real)
    requires id in t.outbox && t.outbox[id].campaign in t.campaigns && TermsOk(t, t.outbox[id].campaign)
    requires var c := t.outbox[id].campaign;
             && ApprovedOk(t, c) && t.campaigns[c].expires == t.campaigns[c].created + CAMPAIGN_SECONDS
             && (Intact(t.outbox[id], t.campaigns[c].binding) <==> t.outbox[id].view.Some?)
             && id.campaign == c
    ensures Reserve(t, code, id, transport, now).Success? <==> MayPay(t, code, id, transport, now)
  {
    assert Reserved(t, id.campaign)
        == set i | i in t.outbox && t.outbox[i].campaign == id.campaign && t.outbox[i].reservedDay.Some?;
  }

  /**
   Of any tables whatever, forged rows included: nothing is paid for a row that does not say what was bound when it
   was delivered, nor for a live campaign without its complete approval.
   */
  lemma PaidRowsAgree(t: Tables, code: Code, id: OutboxId, transport: Transport, now: real)
    requires Reserve(t, code, id, transport, now).Success?
    ensures id in t.outbox && t.outbox[id].campaign in t.campaigns
    ensures var r := t.outbox[id]; var m := t.campaigns[r.campaign];
            && r.view.Some? && r.view.value == r.sources.view && r.rules == Some(RulesOf(r.view.value))
            && r.bound == Bound(r.view.value, r.sources, r.sourceRun, r.rulesRef, r.campaign, m.binding)
            && m.state.Approved? && m.created <= now < m.expires && Suits(transport, m.binding)
               && CodeIs(code, m.binding)
            && (transport.LiveTransport? ==>
                  && r.campaign in t.approvals && t.approvals[r.campaign].binding == m.binding
                  && t.approvals[r.campaign].sharingOff && t.approvals[r.campaign].retentionKnown)
  {
  }

  /** No id is used twice, and no approval is overwritten, whatever is stored. */
  lemma KnownIdsAreRefused(t: Tables, id: CampaignId, mode: Mode, binding: Binding, actor: string, off: bool,
                           known: bool, now: real)
    ensures id in t.campaigns ==> PrepareCampaign(t, id, mode, binding, now).Failure?
    ensures id in t.approvals ==> ApproveLive(t, id, binding, actor, off, known, now).Failure?
  {
  }

  /** A late outcome is written exactly while the item is being sent, and then it waits for review. */
  lemma CompletedExactly(w: World, id: OutboxId, result: Option<string>, reason: string, now: real)
    ensures var u := Step(w, Finish(id, result, reason, now)).t;
            if id in w.t.outbox && w.t.outbox[id].state.Sending? && ReadingOk(now)
            then && u == w.t.(outbox := u.outbox) && u.outbox.Keys == w.t.outbox.Keys
                 && (forall i :: i in w.t.outbox && i != id ==> u.outbox[i] == w.t.outbox[i])
                 && u.outbox[id].state.NeedsReview? && u.outbox[id].result == result
                 && u.outbox[id].reason == Some(reason) && u.outbox[id].updated == now
                 && RowFades(w.t.outbox[id], u.outbox[id]) && u.outbox[id].view == w.t.outbox[id].view
            else u == w.t
  {
  }

  // ---- restart and prune ----

  /** A restart holds back exactly what was being sent. */
  lemma RestartedExactly(w: World, now: real)
    ensures var u := Step(w, Restart(now)).t;
            && u == w.t.(outbox := u.outbox) && u.outbox.Keys == w.t.outbox.Keys
            && forall i :: i in w.t.outbox ==>
                 u.outbox[i] == if w.t.outbox[i].state.Sending? && ReadingOk(now)
                                then w.t.outbox[i].(state := NeedsReview, reason := Some("unknown_send"),
                                                    updated := now)
                                else w.t.outbox[i]
  {
  }

  const WEEK: real := 7.0 * 86400.0
  const QUARTER: real := 90.0 * 86400.0

  /** What a prune leaves of a row: its identity and dates, and its body for a week. */
  predicate LeftOf(r: Item, s: Item, now: real) {
    if r.created < now - WEEK && r.view.Some?
    then s == r.(view := None, rules := None, result := None, updated := now)
    else s == r
  }

  /** Over every run: a prune drops exactly what is 90 days old, except campaigns that keep a row. */
  lemma PrunedExactly(es: seq<Event>, now: real)
    requires RunPossible(START, es) && ReadingOk(now)
    ensures var t := Run(START, es).t; var u := Step(Run(START, es), Event.Prune(now)).t;
            && u.lastAt == t.lastAt
            && (forall i :: i in u.outbox <==> i in t.outbox && t.outbox[i].created >= now - QUARTER)
            && (forall i :: i in u.outbox ==> LeftOf(t.outbox[i], u.outbox[i], now))
            && (forall c :: c in u.campaigns <==>
                  c in t.campaigns && (t.campaigns[c].created >= now - QUARTER || exists i ::
                                       i in u.outbox && i.campaign == c))
            && (forall c :: c in u.campaigns ==> u.campaigns[c] == t.campaigns[c])
            && (forall c :: c in u.approvals <==> c in t.approvals && c in u.campaigns)
            && (forall c :: c in u.approvals ==> u.approvals[c] == t.approvals[c])
            && (forall d :: d in u.budget <==> d in t.budget && d >= Day(now - QUARTER))
            && (forall d :: d in u.budget ==> u.budget[d] == t.budget[d])
  {
    var w := Run(START, es);
    RunKeepsTerms(START, es);
    var u := Step(w, Event.Prune(now)).t;
    forall i | i in w.t.outbox ensures w.t.outbox[i].campaign == i.campaign { assert RowOk(w, i); }
    forall c ensures Used(u.outbox, c) <==> exists i :: i in u.outbox && i.campaign == c {
      if i :| i in u.outbox && i.campaign == c { assert u.outbox[i].campaign == c; }
    }
  }
}
