/**
 The continuous model ledger (ai-ops/src/ai_ops/continuous_model.py): campaigns, their outbox, and a
 daily budget.  Each SQLite transaction is a function from `Tables` to a result; processing an item
 is two transactions with the paid call between them.
 */
module ContinuousModel {
  import opened Wrappers

  const DAY: real := 86400.0
  const BODY_SECONDS: real := 604800.0      // 7 days
  const LEDGER_SECONDS: real := 7776000.0   // 90 days
  const CAMPAIGN_SECONDS: real := 86400.0
  const MAX_CASES := 10
  const RESERVE_CENTS := 10
  const DAILY_CENTS := 100
  const CLOCK_LIMIT: real := 100000000000.0

  type CampaignId = nat  // a uuid4

  datatype Mode = Mock | Live
  datatype Plan = Plan(mode: Mode, credential: Option<string>, priceDay: int)

  datatype Binding = Binding(deployment: string, config: string, cluster: string, image: Option<string>,
                             policy: string, prompt: string, implementation: string, plan: Plan)

  // Hashes are injective, so a hash is kept as the value that is hashed.
  datatype View = View(policy: string, content: string)
  datatype Rules = RulesOf(view: View)
  datatype Sources = Sources(bundle: string, audit: string, mapping: string, exporter: string, view: View)
  datatype OutboxId = OutboxId(sourceRun: string, bundle: string, view: View, policy: string, campaign: CampaignId)
  datatype Bound = Bound(view: View, sources: Sources, sourceRun: string, rulesRef: string,
                         campaign: CampaignId, binding: Binding)

  datatype CampaignState = Prepared | Approved | Stopped
  datatype Campaign = Campaign(binding: Binding, state: CampaignState, created: real, expires: real,
                               actor: Option<string>)
  datatype Approval = Approval(binding: Binding, actor: string, at: real, sharingOff: bool, retentionKnown: bool)

  datatype ItemState = Waiting | Sending | NeedsReview
  datatype Item = Item(bound: Bound, sources: Sources, view: Option<View>, rules: Option<Rules>, result: Option<string>,
                       sourceRun: string, rulesRef: string, campaign: CampaignId, state: ItemState,
                       reason: Option<string>, created: real, updated: real, reservedDay: Option<int>)

  datatype Tables = Tables(campaigns: map<CampaignId, Campaign>, approvals: map<CampaignId, Approval>,
                           outbox: map<OutboxId, Item>, budget: map<int, int>, lastAt: Option<real>)

  /** What the running program compares a stored binding with. */
  datatype Code = Code(implementation: string, prompts: map<string, string>)

  datatype Request = Request(campaign: CampaignId, deployment: string, config: string, cluster: string,
                             sources: Sources, sourceRun: string, rulesRef: string)

  datatype Error =
    | BadClock | BadPlan | ConstraintViolated | ApprovalRejected | CampaignUnavailable | CodeChanged
    | TargetRejected | IdentityConflict | SourceConflict | NotPrepared | CampaignNotActive | ImageChanged
    | ApprovalMissing | IntegrityRejected | CredentialChanged | PriceExpired | ClockMovedBackwards | BudgetLimit

  const EMPTY := Tables(map[], map[], map[], map[], None)

  predicate ClockOk(now: real) { 0.0 <= now < CLOCK_LIMIT }

  /** The UTC date of a reading, as a day number; ISO dates order as their day numbers. */
  function Day(at: real): int { (at / DAY).Floor }

  predicate PlanFits(plan: Plan, mode: Mode) {
    plan.mode == mode && (mode.Mock? <==> plan.credential.None?)
  }

  function PrepareCampaign(t: Tables, id: CampaignId, mode: Mode, binding: Binding, now: real): Result<Tables, Error> {
    if !PlanFits(binding.plan, mode) then Failure(BadPlan)
    else if !ClockOk(now) then Failure(BadClock)
    else if id in t.campaigns then Failure(ConstraintViolated)
    else Success(t.(campaigns := t.campaigns[id := Campaign(binding, Prepared, now, now + CAMPAIGN_SECONDS, None)]))
  }

  predicate Approvable(t: Tables, id: CampaignId, hash: Binding, mode: Mode, now: real) {
    && id in t.campaigns && t.campaigns[id].state.Prepared? && now < t.campaigns[id].expires
    && t.campaigns[id].binding == hash && PlanFits(hash.plan, mode)
  }

  function ApproveMock(t: Tables, id: CampaignId, hash: Binding, actor: string, now: real): Result<Tables, Error> {
    if !ClockOk(now) then Failure(BadClock)
    else if !Approvable(t, id, hash, Mock, now) then Failure(ApprovalRejected)
    else Success(t.(campaigns := t.campaigns[id := t.campaigns[id].(state := Approved, actor := Some(actor))]))
  }

  function ApproveLive(t: Tables, id: CampaignId, hash: Binding, actor: string, sharingOff: bool, retentionKnown: bool,
                       now: real): Result<Tables, Error>
  {
    if !sharingOff || !retentionKnown then Failure(ApprovalRejected)
    else if !ClockOk(now) then Failure(BadClock)
    else if !Approvable(t, id, hash, Live, now) then Failure(ApprovalRejected)
    else if id in t.approvals then Failure(ConstraintViolated)
    else Success(t.(campaigns := t.campaigns[id := t.campaigns[id].(state := Approved, actor := Some(actor))],
                    approvals := t.approvals[id := Approval(hash, actor, now, true, true)]))
  }

  predicate CodeFits(code: Code, binding: Binding) {
    && binding.policy in code.prompts && binding.prompt == code.prompts[binding.policy]
    && binding.implementation == code.implementation
  }

  predicate TargetFits(binding: Binding, q: Request) {
    && q.deployment == binding.deployment && q.config == binding.config && q.cluster == binding.cluster
    && q.sources.view.policy == binding.policy
  }

  function IdOf(q: Request): OutboxId {
    OutboxId(q.sourceRun, q.sources.bundle, q.sources.view, q.sources.view.policy, q.campaign)
  }

  function BoundOf(q: Request, binding: Binding): Bound {
    Bound(q.sources.view, q.sources, q.sourceRun, q.rulesRef, q.campaign, binding)
  }

  predicate SourceTaken(t: Tables, q: Request) {
    exists i :: i in t.outbox && t.outbox[i].campaign == q.campaign && t.outbox[i].sourceRun == q.sourceRun
  }

  /** The insertion both entry points share: dedup on the id, then on the source run. */
  function Insert(t: Tables, q: Request, binding: Binding, now: real): Result<(Tables, OutboxId), Error> {
    var id := IdOf(q);
    if id in t.outbox then
      if t.outbox[id].bound != BoundOf(q, binding) then Failure(IdentityConflict) else Success((t, id))
    else if SourceTaken(t, q) then Failure(SourceConflict)
    else if !ClockOk(now) then Failure(BadClock)
    else
      var item := Item(BoundOf(q, binding), q.sources, Some(q.sources.view), Some(RulesOf(q.sources.view)), None,
                       q.sourceRun, q.rulesRef, q.campaign, Waiting, None, now, now, None);
      Success((t.(outbox := t.outbox[id := item]), id))
  }

  /** The mock entry: any campaign that is not stopped, with no look at the clock. */
  function Enqueue(t: Tables, code: Code, q: Request, now: real): Result<(Tables, OutboxId), Error> {
    if q.campaign !in t.campaigns || t.campaigns[q.campaign].state.Stopped? then Failure(CampaignUnavailable)
    else
      var binding := t.campaigns[q.campaign].binding;
      if !CodeFits(code, binding) || binding.policy != q.sources.view.policy then Failure(CodeChanged)
      else if !TargetFits(binding, q) then Failure(TargetRejected)
      else if !PlanFits(binding.plan, Mock) then Failure(BadPlan)
      else Insert(t, q, binding, now)
  }

  predicate Active(t: Tables, c: CampaignId, now: real) {
    c in t.campaigns && t.campaigns[c].state.Approved? && t.campaigns[c].created <= now < t.campaigns[c].expires
  }

  predicate ApprovedLive(t: Tables, c: CampaignId, binding: Binding) {
    c in t.approvals && t.approvals[c].binding == binding && t.approvals[c].sharingOff && t.approvals[c].retentionKnown
  }

  /** The live entry: only an approved campaign inside its 24 hours. */
  function EnqueueSubmission(t: Tables, code: Code, q: Request, now: real): Result<(Tables, OutboxId), Error> {
    if !ClockOk(now) then Failure(BadClock)
    else if !Active(t, q.campaign, now) then Failure(CampaignUnavailable)
    else
      var binding := t.campaigns[q.campaign].binding;
      if !PlanFits(binding.plan, Live) then Failure(BadPlan)
      else if !ApprovedLive(t, q.campaign, binding) || !CodeFits(code, binding) then Failure(CodeChanged)
      else if !TargetFits(binding, q) then Failure(TargetRejected)
      else Insert(t, q, binding, now)
  }

  /** Rows of a campaign that hold a reservation. */
  function Reserved(t: Tables, c: CampaignId): set<OutboxId> {
    set i | i in t.outbox && t.outbox[i].campaign == c && t.outbox[i].reservedDay.Some?
  }

  function SpentOn(t: Tables, day: int): int { if day in t.budget then t.budget[day] else 0 }

  /** The stored row still says what was bound when it was enqueued. */
  predicate Intact(item: Item, binding: Binding) {
    && item.view.Some?
    && item.bound == Bound(item.view.value, item.sources, item.sourceRun, item.rulesRef, item.campaign, binding)
    && item.view.value == item.sources.view && item.rules == Some(RulesOf(item.view.value))
  }

  /** The transport the caller brings: mock, or live with its image and credential. */
  datatype Transport = MockTransport | LiveTransport(image: string, credential: string)
  {
    function Kind(): Mode { if MockTransport? then Mock else Live }
  }

  /** Everything checked before money may be spent on an item of an active campaign. */
  function Refusal(t: Tables, code: Code, item: Item, transport: Transport, now: real): Option<Error>
    requires item.campaign in t.campaigns
  {
    var binding := t.campaigns[item.campaign].binding;
    if !CodeFits(code, binding) then Some(CodeChanged)
    else if transport.LiveTransport? && binding.image != Some(transport.image) then Some(ImageChanged)
    else if transport.LiveTransport? && !ApprovedLive(t, item.campaign, binding) then Some(ApprovalMissing)
    else if !Intact(item, binding) then Some(IntegrityRejected)
    else if !PlanFits(binding.plan, transport.Kind()) then Some(BadPlan)
    else if transport.LiveTransport? && binding.plan.credential != Some(transport.credential)
    then Some(CredentialChanged)
    else if !(-7 <= binding.plan.priceDay - Day(now) <= 0) then Some(PriceExpired)
    else if t.lastAt.Some? && now < t.lastAt.value then Some(ClockMovedBackwards)
    else if |Reserved(t, item.campaign)| >= MAX_CASES || SpentOn(t, Day(now)) + RESERVE_CENTS > DAILY_CENTS
    then Some(BudgetLimit)
    else None
  }

  /** First transaction of processing: reserve ten cents and mark the item as being sent. */
  function Reserve(t: Tables, code: Code, id: OutboxId, transport: Transport, now: real): Result<Tables, Error> {
    if id !in t.outbox || !t.outbox[id].state.Waiting? then Failure(NotPrepared)
    else if !ClockOk(now) then Failure(BadClock)
    else if !Active(t, t.outbox[id].campaign, now) then Failure(CampaignNotActive)
    else
      var refused := Refusal(t, code, t.outbox[id], transport, now);
      if refused.Some? then Failure(refused.value)
      else
        var day := Day(now);
        Success(t.(budget := t.budget[day := SpentOn(t, day) + RESERVE_CENTS], lastAt := Some(now),
                   outbox := t.outbox[id := t.outbox[id].(state := Sending, reservedDay := Some(day), updated := now)]))
  }

  /** Last transaction of processing: record the outcome, but only if the item is still being sent. */
  function Complete(t: Tables, id: OutboxId, result: Option<string>, reason: string, now: real): Result<Tables, Error> {
    if !ClockOk(now) then Failure(BadClock)
    else if id !in t.outbox || !t.outbox[id].state.Sending? then Success(t)
    else Success(t.(outbox := t.outbox[id :=
      t.outbox[id].(state := NeedsReview, reason := Some(reason), result := result, updated := now)]))
  }

  function Stop(t: Tables, c: CampaignId): Tables {
    if c in t.campaigns then t.(campaigns := t.campaigns[c := t.campaigns[c].(state := Stopped)]) else t
  }

  function Park(item: Item, now: real): Item {
    if item.state.Sending? then item.(state := NeedsReview, reason := Some("unknown_send"), updated := now) else item
  }

  /** At restart: what was being sent is held for review. */
  function Reconcile(t: Tables, now: real): Result<Tables, Error> {
    if !ClockOk(now) then Failure(BadClock)
    else Success(t.(outbox := map i | i in t.outbox :: Park(t.outbox[i], now)))
  }

  function Erase(item: Item, now: real): Item {
    if item.created < now - BODY_SECONDS && item.view.Some?
    then item.(view := None, rules := None, result := None, updated := now) else item
  }

  predicate Used(outbox: map<OutboxId, Item>, c: CampaignId) {
    exists i :: i in outbox && outbox[i].campaign == c
  }

  /** Bodies go after 7 days; rows, budget days and then unused campaigns after 90. */
  function Prune(t: Tables, now: real): Result<Tables, Error> {
    if !ClockOk(now) then Failure(BadClock)
    else
      var cut := now - LEDGER_SECONDS;
      var outbox := map i | i in t.outbox && t.outbox[i].created >= cut :: Erase(t.outbox[i], now);
      var campaigns := map c | c in t.campaigns && (t.campaigns[c].created >= cut || Used(outbox, c)) :: t.campaigns[c];
      Success(Tables(campaigns, map c | c in t.approvals && c in campaigns :: t.approvals[c], outbox,
                     map d | d in t.budget && d >= Day(cut) :: t.budget[d], t.lastAt))
  }
}
