/**
 The comparison store as the program has it: an object over its record and ledger files.  Each method is
 proved to leave the files that module ModelComparison says; `Run` does its writes and its one send in
 the program's order.
 */
module ComparisonStore {
  import opened Wrappers
  import opened C = ModelComparison

  class ComparisonStore {
    var records: map<nat, Record>
    var mock: Option<Ledger>
    var live: Option<Ledger>

    function Files(): Files
      reads this
    {
      C.Files(records, mock, live)
    }

    constructor ()
      ensures Files() == EMPTY
    {
      records, mock, live := map[], None, None;
    }

    method Prepare(id: nat, b: Bound, rules: string, evidence: bool, now: int) returns (e: Option<Error>)
      modifies this
      ensures match C.Prepare(old(Files()), id, b, rules, evidence, now)
              case Success(f) => Files() == f && e == None
              case Failure(x) => Files() == old(Files()) && e == Some(x)
    {
      if !evidence { return Some(NoEvidence); }
      if id in records {
        return if records[id].bound != b then Some(IdentityConflict) else None;
      }
      records := records[id := Record(b, Prepared, rules, now, now + LIFE, None, None)];
      e := None;
    }

    method Approve(code: Code, id: nat, hash: Bound, actor: string, retention: bool, sharingOff: bool, now: int)
      returns (e: Option<Error>)
      modifies this
      ensures match C.Approve(old(Files()), code, id, hash, actor, retention, sharingOff, now)
              case Success(f) => Files() == f && e == None
              case Failure(x) => Files() == old(Files()) && e == Some(x)
    {
      var v := Validated(Files(), code, id);
      if v.Failure? { return Some(v.error); }
      var r := v.value;
      if r.bound.plan.mode.Live? && !retention { return Some(RetentionUnknown); }
      if r.bound.plan.mode.Live? && !sharingOff { return Some(SharingUnknown); }
      if !r.state.Prepared? || hash != r.bound || !(r.created <= now < r.expires) { return Some(ApprovalRejected); }
      if !PriceFresh(r.bound.plan, now) { return Some(PriceExpired); }
      var until := if now + APPROVAL < r.expires then now + APPROVAL else r.expires;
      records := records[id := r.(state := Approved,
                                  approval := Some(Approval(actor, hash, retention, sharingOff, now, until)))];
      e := None;
    }

    method Reserve(mode: Mode, now: int) returns (e: Option<Error>)
      modifies this
      ensures match C.Reserve(old(Files()), mode, now)
              case Success(f) => Files() == f && e == None
              case Failure(x) => Files() == old(Files()) && e == Some(x)
    {
      var stored := if mode.Mock? then mock else live;
      var l := if stored.Some? then stored.value else Ledger(map[], now);
      if now < l.lastAt { return Some(ClockMovedBackwards); }
      var amount := if Day(now) in l.days then l.days[Day(now)] else 0;
      if amount < 0 || amount > DAILY_CENTS - RESERVE_CENTS { return Some(BudgetLimit); }
      l := Ledger(l.days[Day(now) := amount + RESERVE_CENTS], now);
      if mode.Mock? { mock := Some(l); } else { live := Some(l); }
      e := None;
    }

    /** A whole run; `outcome` is what the one request, made between the two record writes, led to. */
    method Run(code: Code, id: nat, transport: Option<Transport>, now: int, outcome: (State, string))
      returns (e: Option<Error>, sends: nat)
      requires Closing(outcome.0)
      modifies this
      ensures match Begin(old(Files()), code, id, transport, now)
              case Refused(x) => Files() == old(Files()) && e == Some(x) && sends == 0
              case Interrupted(f) => Files() == f && e == Some(PreviousUnknown) && sends == 0
              case Finished => Files() == old(Files()) && e == None && sends == 0
              case Reserved(f) =>
                && id in f.records && f.records[id].Record? && e == None && sends == 1
                && Files() == Close(Mark(f, id), id, outcome.0, outcome.1)
    {
      sends := 0;
      if transport.None? { return Some(NotEnabled), 0; }
      var v := Validated(Files(), code, id);
      if v.Failure? { return Some(v.error), 0; }
      var r := v.value;
      var plan := r.bound.plan;
      if transport.value.mode != plan.mode || (plan.mode.Live? && transport.value.credential != plan.credential) {
        return Some(PlanMismatch), 0;
      }
      if r.state.Sending? {
        records := records[id := r.(state := NeedsReview, reason := Some("projection_interrupted_unknown"))];
        return Some(PreviousUnknown), 0;
      }
      if r.state.Failed? || r.state.NeedsReview? { return None, 0; }
      if !ApprovedNow(r, now) { return Some(NotApproved), 0; }
      if plan.mode.Live? && !r.approval.value.retention { return Some(RetentionUnknown), 0; }
      if plan.mode.Live? && !r.approval.value.sharingOff { return Some(SharingUnknown), 0; }
      if !PriceFresh(plan, now) { return Some(PriceExpired), 0; }
      e := Reserve(plan.mode, now);
      if e.Some? { return; }
      r := r.(state := Sending);
      records := records[id := r];
      sends := sends + 1;
      r := r.(state := outcome.0, reason := Some(outcome.1));
      records := records[id := r];
    }

    method PurgeLedger(mode: Mode, now: int) returns (e: Option<Error>)
      modifies this
      ensures match C.PurgeLedger(old(Files()), mode, now)
              case Success(f) => Files() == f && e == None
              case Failure(x) => Files() == old(Files()) && e == Some(x)
    {
      var stored := if mode.Mock? then mock else live;
      if stored.None? { return None; }
      var l := stored.value;
      if now < l.lastAt { return Some(ClockMovedBackwards); }
      l := l.(days := map d | d in l.days && Day(now) - d < LEDGER_DAYS :: l.days[d]);
      if mode.Mock? { mock := Some(l); } else { live := Some(l); }
      e := None;
    }

    /** Every expired record becomes a tombstone, one file at a time, before the ledgers are cut. */
    method Purge(now: int) returns (e: Option<Error>)
      modifies this
      ensures (Files(), e) == C.Purge(old(Files()), now)
    {
      var todo := records.Keys;
      while todo != {}
        invariant todo <= old(records).Keys && mock == old(mock) && live == old(live)
        invariant records == map id | id in old(records) :: if id in todo then old(records)[id]
                  else Bury(old(records)[id], now)
        decreases |todo|
      {
        var id :| id in todo;
        var r := records[id];
        if r.Record? && r.expires <= now {
          records := records[id := Tombstone(r.bound, now)];
        }
        todo := todo - {id};
      }
      assert records == Buried(old(records), now);
      e := PurgeLedger(Mock, now);
      if e.Some? { return; }
      e := PurgeLedger(Live, now);
    }
  }
}
