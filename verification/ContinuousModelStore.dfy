/**
 The model ledger as the program has it: an object over its tables, each method one transaction.
 Every method is proved to commit exactly the transaction of module ContinuousModel, or to change
 nothing when that transaction fails.
 */
module ContinuousModelStore {
  import opened Wrappers
  import opened M = ContinuousModel

  class ContinuousModelStore {
    var campaigns: map<CampaignId, Campaign>
    var approvals: map<CampaignId, Approval>
    var outbox: map<OutboxId, Item>
    var budget: map<int, int>
    var lastAt: Option<real>

    function View(): Tables
      reads this
    {
      Tables(campaigns, approvals, outbox, budget, lastAt)
    }

    constructor ()
      ensures View() == EMPTY
    {
      campaigns, approvals, outbox, budget, lastAt := map[], map[], map[], map[], None;
    }

    method PrepareCampaign(id: CampaignId, mode: Mode, binding: Binding, now: real) returns (r: Result<CampaignId,
                           Error>)
      modifies this
      ensures match M.PrepareCampaign(old(View()), id, mode, binding, now)
              case Success(t) => View() == t && r == Success(id)
              case Failure(e) => View() == old(View()) && r == Failure(e)
    {
      if !PlanFits(binding.plan, mode) { return Failure(BadPlan); }
      if !ClockOk(now) { return Failure(BadClock); }
      if id in campaigns { return Failure(ConstraintViolated); }
      campaigns := campaigns[id := Campaign(binding, Prepared, now, now + CAMPAIGN_SECONDS, None)];
      r := Success(id);
    }

    method ApproveMock(id: CampaignId, hash: Binding, actor: string, now: real) returns (e: Option<Error>)
      modifies this
      ensures match M.ApproveMock(old(View()), id, hash, actor, now)
              case Success(t) => View() == t && e == None
              case Failure(f) => View() == old(View()) && e == Some(f)
    {
      if !ClockOk(now) { return Some(BadClock); }
      if id !in campaigns { return Some(ApprovalRejected); }
      var m := campaigns[id];
      if !m.state.Prepared? || now >= m.expires || m.binding != hash || !PlanFits(hash.plan, Mock) {
        return Some(ApprovalRejected);
      }
      campaigns := campaigns[id := m.(state := Approved, actor := Some(actor))];
      e := None;
    }

    method ApproveLive(id: CampaignId, hash: Binding, actor: string, sharingOff: bool, retentionKnown: bool, now: real)
      returns (e: Option<Error>)
      modifies this
      ensures match M.ApproveLive(old(View()), id, hash, actor, sharingOff, retentionKnown, now)
              case Success(t) => View() == t && e == None
              case Failure(f) => View() == old(View()) && e == Some(f)
    {
      if !sharingOff || !retentionKnown { return Some(ApprovalRejected); }
      if !ClockOk(now) { return Some(BadClock); }
      if id !in campaigns { return Some(ApprovalRejected); }
      var m := campaigns[id];
      if !m.state.Prepared? || now >= m.expires || m.binding != hash || !PlanFits(hash.plan, Live) {
        return Some(ApprovalRejected);
      }
      if id in approvals { return Some(ConstraintViolated); }
      approvals := approvals[id := Approval(hash, actor, now, true, true)];
      campaigns := campaigns[id := m.(state := Approved, actor := Some(actor))];
      e := None;
    }

    /** The dedup on identity and then on source run that both entries end with. */
    method Insert(q: Request, binding: Binding, now: real) returns (r: Result<OutboxId, Error>)
      modifies this
      ensures match M.Insert(old(View()), q, binding, now)
              case Success((t, id)) => View() == t && r == Success(id)
              case Failure(e) => View() == old(View()) && r == Failure(e)
    {
      var id := IdOf(q);
      var bound := BoundOf(q, binding);
      if id in outbox {
        if outbox[id].bound != bound { return Failure(IdentityConflict); }
        return Success(id);
      }
      if exists i :: i in outbox && outbox[i].campaign == q.campaign && outbox[i].sourceRun == q.sourceRun {
        return Failure(SourceConflict);
      }
      if !ClockOk(now) { return Failure(BadClock); }
      var view := q.sources.view;
      outbox := outbox[id := Item(bound, q.sources, Some(view), Some(RulesOf(view)), None, q.sourceRun, q.rulesRef,
                                  q.campaign, Waiting, None, now, now, None)];
      r := Success(id);
    }

    method Enqueue(code: Code, q: Request, now: real) returns (r: Result<OutboxId, Error>)
      modifies this
      ensures match M.Enqueue(old(View()), code, q, now)
              case Success((t, id)) => View() == t && r == Success(id)
              case Failure(e) => View() == old(View()) && r == Failure(e)
    {
      if q.campaign !in campaigns || campaigns[q.campaign].state.Stopped? { return Failure(CampaignUnavailable); }
      var binding := campaigns[q.campaign].binding;
      if !CodeFits(code, binding) || binding.policy != q.sources.view.policy { return Failure(CodeChanged); }
      if !TargetFits(binding, q) { return Failure(TargetRejected); }
      if !PlanFits(binding.plan, Mock) { return Failure(BadPlan); }
      r := Insert(q, binding, now);
    }

    method EnqueueSubmission(code: Code, q: Request, now: real) returns (r: Result<OutboxId, Error>)
      modifies this
      ensures match M.EnqueueSubmission(old(View()), code, q, now)
              case Success((t, id)) => View() == t && r == Success(id)
              case Failure(e) => View() == old(View()) && r == Failure(e)
    {
      if !ClockOk(now) { return Failure(BadClock); }
      if !Active(View(), q.campaign, now) { return Failure(CampaignUnavailable); }
      var binding := campaigns[q.campaign].binding;
      if !PlanFits(binding.plan, Live) { return Failure(BadPlan); }
      if !ApprovedLive(View(), q.campaign, binding) || !CodeFits(code, binding) { return Failure(CodeChanged); }
      if !TargetFits(binding, q) { return Failure(TargetRejected); }
      r := Insert(q, binding, now);
    }

    /** The transaction before the paid call. */
    method Reserve(code: Code, id: OutboxId, transport: Transport, now: real) returns (e: Option<Error>)
      modifies this
      ensures match M.Reserve(old(View()), code, id, transport, now)
              case Success(t) => View() == t && e == None
              case Failure(f) => View() == old(View()) && e == Some(f)
    {
      if id !in outbox || !outbox[id].state.Waiting? { return Some(NotPrepared); }
      if !ClockOk(now) { return Some(BadClock); }
      if !Active(View(), outbox[id].campaign, now) { return Some(CampaignNotActive); }
      var refused := Refusal(View(), code, outbox[id], transport, now);
      if refused.Some? { return refused; }
      var day := Day(now);
      budget := budget[day := (if day in budget then budget[day] else 0) + RESERVE_CENTS];
      lastAt := Some(now);
      outbox := outbox[id := outbox[id].(state := Sending, reservedDay := Some(day), updated := now)];
      e := None;
    }

    /** The transaction after the paid call: it writes only while the item is still being sent. */
    method Complete(id: OutboxId, result: Option<string>, reason: string, now: real) returns (e: Option<Error>)
      modifies this
      ensures match M.Complete(old(View()), id, result, reason, now)
              case Success(t) => View() == t && e == None
              case Failure(f) => View() == old(View()) && e == Some(f)
    {
      if !ClockOk(now) { return Some(BadClock); }
      if id in outbox && outbox[id].state.Sending? {
        outbox := outbox[id := outbox[id].(state := NeedsReview, reason := Some(reason), result := result,
                                           updated := now)];
      }
      e := None;
    }

    method Stop(c: CampaignId)
      modifies this
      ensures View() == M.Stop(old(View()), c)
    {
      if c in campaigns {
        campaigns := campaigns[c := campaigns[c].(state := Stopped)];
      }
    }

    method ReconcileSending(now: real) returns (e: Option<Error>)
      modifies this
      ensures match Reconcile(old(View()), now)
              case Success(t) => View() == t && e == None
              case Failure(f) => View() == old(View()) && e == Some(f)
    {
      if !ClockOk(now) { return Some(BadClock); }
      outbox := map i | i in outbox :: Park(outbox[i], now);
      e := None;
    }

    /** The statements of the pruning transaction, in the program's order. */
    method Prune(now: real) returns (e: Option<Error>)
      modifies this
      ensures match M.Prune(old(View()), now)
              case Success(t) => View() == t && e == None
              case Failure(f) => View() == old(View()) && e == Some(f)
    {
      if !ClockOk(now) { return Some(BadClock); }
      var cut := now - LEDGER_SECONDS;
      PrunedInSteps(outbox, now, cut);
      outbox := map i | i in outbox :: Erase(outbox[i], now);
      outbox := map i | i in outbox && outbox[i].created >= cut :: outbox[i];
      budget := map d | d in budget && d >= Day(cut) :: budget[d];
      campaigns := map c | c in campaigns && (campaigns[c].created >= cut || Used(outbox, c)) :: campaigns[c];
      approvals := map c | c in approvals && c in campaigns :: approvals[c];
      e := None;
    }
  }

  /** Erasing bodies and then deleting rows is keeping the young rows erased. */
  lemma PrunedInSteps(outbox: map<OutboxId, Item>, now: real, cut: real)
    ensures var erased := map i | i in outbox :: Erase(outbox[i], now);
            (map i | i in erased && erased[i].created >= cut :: erased[i])
            == map i | i in outbox && outbox[i].created >= cut :: Erase(outbox[i], now)
  {
  }
}
