/**
 What a paid request needs: over every run and with any clock, a reservation is written exactly for a
 comparison that was approved under the terms it was prepared with, in its half hour and its seven days.
 */
module ModelComparisonApprovals {
  import opened Wrappers
  import opened ModelComparison
  import opened ModelComparisonLaws

  const HALF_HOUR: int := 30 * 60 * 1000000
  const WEEK: int := 7 * 24 * 3600 * 1000000

  /** The approval stored in a record is one that was given, for that record and in its life. */
  predicate Granted(w: World, id: nat, g: Grant) {
    && g in w.grants && g.id == id && id in w.files.records && w.files.records[id].Record?
    && g.bound == w.files.records[id].bound
    && w.files.records[id].created <= g.at < w.files.records[id].created + WEEK
    && (g.bound.plan.mode.Live? ==> g.retention && g.sharingOff)
  }

  predicate StoredFrom(r: Record, g: Grant)
    requires r.Record?
  {
    && r.approval == Some(Approval(g.actor, g.bound, g.retention, g.sharingOff, g.at,
                                   if g.at + HALF_HOUR < r.created + WEEK then g.at + HALF_HOUR else r.created + WEEK))
  }

  predicate RecordOk(w: World, id: nat)
    requires id in w.files.records
  {
    var r := w.files.records[id];
    r.Record? ==>
      && r.expires == r.created + WEEK && (r.state.Prepared? <==> r.approval.None?)
      && (r.approval.Some? ==> exists g :: g in w.grants && Granted(w, id, g) && StoredFrom(r, g))
  }

  predicate RecordsOk(w: World) {
    forall id {:trigger RecordOk(w, id)} :: id in w.files.records ==> RecordOk(w, id)
  }

  /** A record that keeps its terms, dates and approval keeps what is known of it. */
  predicate SameTerms(r: Record, s: Record) {
    r.Record? && s.Record? ==>
      && s.bound == r.bound && s.created == r.created && s.expires == r.expires && s.approval == r.approval
      && (s.state.Prepared? <==> r.state.Prepared?)
  }

  lemma SameTermsStayOk(w: World, v: World, id: nat)
    requires id in w.files.records && RecordOk(w, id) && id in v.files.records && w.grants <= v.grants
    requires v.files.records[id].Record? ==> w.files.records[id].Record?
    requires SameTerms(w.files.records[id], v.files.records[id])
    ensures RecordOk(v, id)
  {
    var r, s := w.files.records[id], v.files.records[id];
    if s.Record? && r.approval.Some? {
      var g :| g in w.grants && Granted(w, id, g) && StoredFrom(r, g);
      assert g in v.grants;
      assert Granted(v, id, g) && StoredFrom(s, g);
    }
  }

  lemma ApproveKeepsRecords(w: World, e: Event)
    requires Sound(w) && RecordsOk(w) && Possible(w, e) && e.Approve?
    ensures RecordsOk(Step(w, e))
  {
    var v := Step(w, e);
    forall id | id in v.files.records ensures RecordOk(v, id) {
      assert RecordOk(w, id);
      if v.files == w.files || id != e.id {
        SameTermsStayOk(w, v, id);
      } else {
        var g := Grant(id, e.hash, e.actor, e.retention, e.sharingOff, e.now);
        assert v.grants[|w.grants|] == g;
        assert Granted(v, id, g) && StoredFrom(v.files.records[id], g);
      }
    }
  }

  lemma StepKeepsRecords(w: World, e: Event)
    requires Sound(w) && RecordsOk(w) && Possible(w, e)
    ensures RecordsOk(Step(w, e))
  {
    var v := Step(w, e);
    if e.Approve? {
      ApproveKeepsRecords(w, e);
    } else {
      forall id | id in v.files.records ensures RecordOk(v, id) {
        if id in w.files.records {
          assert RecordOk(w, id);
          SameTermsStayOk(w, v, id);
        }
      }
    }
  }

  lemma {:induction false} PlayKeepsRecords(w: World, es: seq<Event>)
    requires Sound(w) && RecordsOk(w) && AllPossible(w, es)
    ensures RecordsOk(Play(w, es))
    decreases |es|
  {
    if es != [] {
      StepIsSound(w, es[0]);
      StepKeepsRecords(w, es[0]);
      PlayKeepsRecords(Step(w, es[0]), es[1..]);
    }
  }

  /** Some approval of these terms was given, and its half hour runs at the reading, within the seven days. */
  predicate Approved(w: World, id: nat, now: int) {
    exists g :: g in w.grants && Granted(w, id, g) && g.at <= now < g.at + HALF_HOUR
      && now < w.files.records[id].created + WEEK
  }

  /** The caller brings the transport of the plan, and for a live one its credential. */
  predicate Suits(transport: Option<Transport>, plan: Plan) {
    && transport.Some? && transport.value.mode == plan.mode
    && (plan.mode.Live? ==> transport.value.credential == plan.credential)
  }

  /** The running code still derives what was bound, and the prices are at most a week old. */
  predicate UpToDate(code: Code, r: Record, now: int)
    requires r.Record?
  {
    && r.bound.implementation == code.implementation
    && (r.bound.projection, r.bound.plan) in code.templates
    && code.templates[(r.bound.projection, r.bound.plan)] == r.bound.templates
    && r.bound.projection in code.rules && code.rules[r.bound.projection] == r.rules
    && Day(now) - 7 <= r.bound.plan.priceDay <= Day(now)
  }

  /** The ledger of the mode has ten cents left on the day, and its last reading is not ahead. */
  predicate Affordable(f: Files, mode: Mode, now: int) {
    && 0 <= SpentOn(f, mode, Day(now)) <= 90
    && (LedgerOf(f, mode).Some? ==> LedgerOf(f, mode).value.lastAt <= now)
  }

  predicate MayPay(w: World, code: Code, id: nat, transport: Option<Transport>, now: int) {
    && id in w.files.records && w.files.records[id].Record? && w.files.records[id].state.Approved?
    && Approved(w, id, now) && Suits(transport, w.files.records[id].bound.plan)
    && UpToDate(code, w.files.records[id], now) && Affordable(w.files, w.files.records[id].bound.plan.mode, now)
  }

  /** The approval in force is the one that was given: there is one for each identifier. */
  predicate OneGrant(w: World) {
    && (forall i, j :: 0 <= i < j < |w.grants| ==> w.grants[i].id != w.grants[j].id)
    && (forall g :: g in w.grants ==>
          g.id in w.files.records && (w.files.records[g.id].Record? ==> !w.files.records[g.id].state.Prepared?))
  }

  lemma StepKeepsOneGrant(w: World, e: Event)
    requires Sound(w) && OneGrant(w) && Possible(w, e)
    ensures OneGrant(Step(w, e))
  {
    var v := Step(w, e);
    if v.grants != w.grants {
      assert forall g :: g in w.grants ==> g.id != e.id;
    }
  }

  lemma {:induction false} PlayKeepsOneGrant(w: World, es: seq<Event>)
    requires Sound(w) && OneGrant(w) && AllPossible(w, es)
    ensures OneGrant(Play(w, es))
    decreases |es|
  {
    if es != [] {
      StepIsSound(w, es[0]);
      StepKeepsOneGrant(w, es[0]);
      PlayKeepsOneGrant(Step(w, es[0]), es[1..]);
    }
  }

  /**
   Over every run and with any clock, a call of run writes a reservation exactly for a comparison that waits with
   an approval in force, with the transport of its plan, the code it was bound to and ten cents left.
   */
  lemma PaidExactlyWhenApproved(es: seq<Event>, code: Code, id: nat, transport: Option<Transport>, now: int)
    requires AllPossible(START, es) && Play(START, es).running.None?
    ensures var w := Play(START, es); var v := Step(w, Run(code, id, transport, now));
            if MayPay(w, code, id, transport, now)
            then v.slots == w.slots + [Slot(id, w.files.records[id].bound.plan.mode, Day(now))]
            else v.slots == w.slots
  {
    var w := Play(START, es);
    PlayKeepsRecords(START, es);
    PlayKeepsOneGrant(START, es);
    if id in w.files.records {
      assert RecordOk(w, id);
    }
  }
}
