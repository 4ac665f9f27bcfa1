/**
 The store against a simpler one in which a proposal is just in one of three phases.  The strict log
 checker accepts exactly the logs of those phases, so it never rejects what the store wrote.
 */
module RecoveryDraftsLaws {
  import opened Wrappers
  import opened RecoveryDrafts

  datatype Phase = Open | CancelledAt(at: int) | Lapsed

  predicate PhaseOk(p: Proposal, ph: Phase) { ph.CancelledAt? ==> p.created <= ph.at < p.expires }

  function CurrentOf(ph: Phase): Current {
    match ph
    case Open => Current(Draft, 1)
    case CancelledAt(_) => Current(Cancelled, 2)
    case Lapsed => Current(Expired, 2)
  }

  function LogOf(p: Proposal, requester: int, ph: Phase): seq<Entry> {
    match ph
    case Open => [Opening(p, requester)]
    case CancelledAt(at) => [Opening(p, requester), Entry(2, Some(Draft), Cancelled, at, Some(requester))]
    case Lapsed => [Opening(p, requester), Entry(2, Some(Draft), Expired, p.expires, None)]
  }

  function ViewOf(p: Proposal, requester: int, ph: Phase): View {
    View(p.id, CurrentOf(ph).state, CurrentOf(ph).version, p.expires, LogOf(p, requester, ph))
  }

  function PhaseOf(log: seq<Entry>): Phase {
    if |log| < 2 then Open else if log[1].to == Cancelled then CancelledAt(log[1].at) else Lapsed
  }

  lemma PhaseOfLog(p: Proposal, requester: int, ph: Phase)
    ensures PhaseOf(LogOf(p, requester, ph)) == ph
  {
  }

  /** The checker accepts a state row and log exactly when they are those of some phase. */
  lemma AcceptsExactlyPhases(p: Proposal, requester: int, current: Current, log: seq<Entry>)
    ensures Accepted(p, requester, current, log) <==>
            exists ph :: PhaseOk(p, ph) && current == CurrentOf(ph) && log == LogOf(p, requester, ph)
  {
    if Accepted(p, requester, current, log) {
      var ph := PhaseOf(log);
      if |log| == 1 { assert log == [log[0]]; } else { assert log == [log[0], log[1]]; }
      assert PhaseOk(p, ph) && current == CurrentOf(ph) && log == LogOf(p, requester, ph);
    }
    if ph :| PhaseOk(p, ph) && current == CurrentOf(ph) && log == LogOf(p, requester, ph) {
      PhaseIsAccepted(p, requester, ph);
    }
  }

  lemma PhaseIsAccepted(p: Proposal, requester: int, ph: Phase)
    requires PhaseOk(p, ph)
    ensures Accepted(p, requester, CurrentOf(ph), LogOf(p, requester, ph))
  {
  }

  // ---- what every reachable database satisfies ----

  predicate RowOk(t: Tables, id: nat)
    requires id in t.proposals
  {
    var p := t.proposals[id];
    && p.id == id && WellTimed(p) && p.request in t.requests && t.requests[p.request].requester > 0
    && (if id in t.states then Accepted(p, t.requests[p.request].requester, t.states[id], Log(t, id))
        else Log(t, id) == [])
  }

  predicate Inv(t: Tables) {
    && (forall id {:trigger RowOk(t, id)} :: id in t.proposals ==> RowOk(t, id))
    && (forall id :: id in t.states ==> id in t.proposals)
    && (forall id :: id in t.events ==> id in t.proposals)
    && (forall i, j :: i in t.proposals && j in t.proposals && t.proposals[i].request == t.proposals[j].request ==>
        i == j)
    && (forall r :: r in t.requests ==> t.requests[r].id == r && t.requests[r].requester > 0)
  }

  function Requester(t: Tables, id: nat): int
    requires id in t.proposals && t.proposals[id].request in t.requests
  {
    t.requests[t.proposals[id].request].requester
  }

  function PhaseIn(t: Tables, id: nat): Phase { PhaseOf(Log(t, id)) }

  function SetPhase(t: Tables, id: nat, ph: Phase): Tables
    requires id in t.proposals && t.proposals[id].request in t.requests
  {
    t.(states := t.states[id := CurrentOf(ph)], events := t.events[id := LogOf(t.proposals[id], Requester(t, id), ph)])
  }

  /** The clock alone ends an open proposal, at its deadline and not later. */
  function Settle(p: Proposal, ph: Phase, now: int): Phase { if ph == Open && now >= p.expires then Lapsed else ph }

  lemma StoredPhase(t: Tables, id: nat)
    requires Inv(t) && id in t.states
    ensures id in t.proposals && t.proposals[id].request in t.requests && PhaseOk(t.proposals[id], PhaseIn(t, id))
    ensures t.states[id] == CurrentOf(PhaseIn(t, id))
    ensures Log(t, id) == LogOf(t.proposals[id], Requester(t, id), PhaseIn(t, id))
  {
    assert RowOk(t, id);
    var p := t.proposals[id];
    AcceptsExactlyPhases(p, Requester(t, id), t.states[id], Log(t, id));
    var ph :| PhaseOk(p, ph) && t.states[id] == CurrentOf(ph) && Log(t, id) == LogOf(p, Requester(t, id), ph);
    PhaseOfLog(p, Requester(t, id), ph);
  }

  /** Opening a row that has no history writes the open phase, and opening it again writes nothing. */
  lemma BeginSetsPhase(t: Tables, id: nat)
    requires Inv(t) && id in t.proposals
    ensures t.proposals[id].id == id && t.proposals[id].request in t.requests
    ensures Begin(t, id, t.proposals[id], Requester(t, id)) == SetPhase(t, id, PhaseIn(t, id))
    ensures PhaseOk(t.proposals[id], PhaseIn(t, id))
  {
    assert RowOk(t, id);
    var p := t.proposals[id];
    if id in t.states {
      StoredPhase(t, id);
      assert Log(t, id)[0] == Opening(p, Requester(t, id));
    } else {
      assert Log(t, id) == [] && !HasVersion([], 1);
      assert PutOrIgnore(Log(t, id), Opening(p, Requester(t, id))) == [Opening(p, Requester(t, id))];
    }
  }

  lemma TransitionSetsPhase(t: Tables, id: nat, ph: Phase)
    requires id in t.proposals && t.proposals[id].request in t.requests
    requires ph != Open && t.proposals[id].id == id
    ensures var u := SetPhase(t, id, Open); var e := LogOf(t.proposals[id], Requester(t, id), ph)[1];
            && Transition(u, id, 1, Draft, e.to, e.at, e.actor) == Success(SetPhase(t, id, ph))
            && Log(u, id) + [e] == LogOf(t.proposals[id], Requester(t, id), ph)
  {
    var u := SetPhase(t, id, Open);
    var e := LogOf(t.proposals[id], Requester(t, id), ph)[1];
    assert Log(u, id) == [Opening(t.proposals[id], Requester(t, id))];
    assert !HasVersion(Log(u, id), 2);
    assert Put(Log(u, id), e) == LogOf(t.proposals[id], Requester(t, id), ph);
    assert u.states[id := CurrentOf(ph)] == t.states[id := CurrentOf(ph)];
    assert u.events[id := Put(Log(u, id), e)] == t.events[id := Put(Log(u, id), e)];
  }

  lemma SettledIsAccepted(t: Tables, id: nat, ph: Phase)
    requires id in t.proposals && t.proposals[id].request in t.requests && PhaseOk(t.proposals[id], ph)
    ensures var u := SetPhase(t, id, ph);
            Accepted(t.proposals[id], Requester(t, id), u.states[id], Log(u, id))
  {
    PhaseIsAccepted(t.proposals[id], Requester(t, id), ph);
  }

  lemma StateStartsFromPhase(t: Tables, id: nat)
    requires Inv(t) && id in t.proposals
    ensures t.proposals[id].request in t.requests && t.proposals[id].id == id
    ensures (if id in t.states then t else Begin(t, id, t.proposals[id], Requester(t, id)))
            == SetPhase(t, id, PhaseIn(t, id))
    ensures PhaseOk(t.proposals[id], PhaseIn(t, id)) && Requester(t, id) > 0
  {
    assert RowOk(t, id);
    BeginSetsPhase(t, id);
    if id in t.states {
      StoredPhase(t, id);
      assert t.states[id := t.states[id]] == t.states && t.events[id := Log(t, id)] == t.events;
    }
  }

  /**
   The transaction that checks ownership, history and expiry is the clock acting on the phase, seen by
   the requester at any moment from creation on; its history check never fires.
   */
  lemma StateLockedRefines(t: Tables, id: nat, actor: int, now: int)
    requires Inv(t) && id in t.proposals
    ensures t.proposals[id].request in t.requests
    ensures StateLocked(t, id, actor, now) ==
            var p := t.proposals[id];
            if actor <= 0 then Failure(BadActor)
            else if actor != Requester(t, id) then Failure(NotRequester)
            else if now < p.created then Failure(BadMoment)
            else var ph := Settle(p, PhaseIn(t, id), now);
                 Success((SetPhase(t, id, ph), ViewOf(p, actor, ph)))
  {
    StateStartsFromPhase(t, id);
    var ph := PhaseIn(t, id);
    SettledIsAccepted(t, id, ph);
    if ph == Open { TransitionSetsPhase(t, id, Lapsed); }
  }

  lemma CancelRefines(t: Tables, id: nat, actor: int, now: int)
    requires Inv(t) && id in t.proposals
    ensures t.proposals[id].request in t.requests
    ensures RecoveryDrafts.Cancel(t, id, actor, now) ==
            var p := t.proposals[id];
            if actor <= 0 then Failure(BadActor)
            else if actor != Requester(t, id) then Failure(NotRequester)
            else if now < p.created then Failure(BadMoment)
            else var ph := Settle(p, PhaseIn(t, id), now); var end := if ph == Open then CancelledAt(now) else ph;
                 Success((SetPhase(t, id, end), ViewOf(p, actor, end)))
  {
    StateLockedRefines(t, id, actor, now);
    StateStartsFromPhase(t, id);
    TransitionSetsPhase(t, id, CancelledAt(now));
  }

  // ---- every operation keeps the invariant ----

  lemma SetPhaseKeepsInv(t: Tables, id: nat, ph: Phase)
    requires Inv(t) && id in t.proposals && PhaseOk(t.proposals[id], ph)
    ensures t.proposals[id].request in t.requests && Inv(SetPhase(t, id, ph)) && PhaseIn(SetPhase(t, id, ph), id) == ph
    ensures forall k :: k in t.proposals && k != id ==> PhaseIn(SetPhase(t, id, ph), k) == PhaseIn(t, k)
  {
    assert RowOk(t, id);
    SettledIsAccepted(t, id, ph);
    var u := SetPhase(t, id, ph);
    forall k | k in u.proposals ensures RowOk(u, k) {
      assert RowOk(t, k);
    }
    PhaseOfLog(t.proposals[id], Requester(t, id), ph);
  }

  lemma AddRequestKeepsInv(t: Tables, r: Request)
    requires Inv(t) && r.requester > 0 && (r.id in t.requests ==> t.requests[r.id] == r)
    ensures Inv(t.(requests := t.requests[r.id := r]))
  {
    var u := t.(requests := t.requests[r.id := r]);
    forall k | k in u.proposals ensures RowOk(u, k) {
      assert RowOk(t, k);
    }
  }

  /** A new proposal joins with no history. */
  lemma AddProposalKeepsInv(t: Tables, p: Proposal)
    requires Inv(t) && WellTimed(p) && p.id !in t.proposals && p.request in t.requests && !OtherRegistered(t, p)
    ensures Inv(t.(proposals := t.proposals[p.id := p])) && PhaseIn(t.(proposals := t.proposals[p.id := p]), p.id)
            == Open
  {
    var u := t.(proposals := t.proposals[p.id := p]);
    forall k | k in u.proposals ensures RowOk(u, k) {
      if k != p.id { assert RowOk(t, k); }
    }
  }

  lemma RegisterNew(t: Tables, r: Request, p: Proposal)
    requires Inv(t) && r.requester > 0 && (r.id in t.requests ==> t.requests[r.id] == r) && r.id == p.request
    requires WellTimed(p) && p.id !in t.proposals && !OtherRegistered(t, p)
    ensures Inv(Register(t, r, p)) && PhaseIn(Register(t, r, p), p.id) == Open
    ensures Register(t, r, p).proposals == t.proposals[p.id := p] && Register(t, r, p).requests == t.requests[r.id := r]
    ensures forall k :: k in t.proposals ==> PhaseIn(Register(t, r, p), k) == PhaseIn(t, k)
  {
    var u := t.(requests := t.requests[r.id := r]);
    AddRequestKeepsInv(t, r);
    AddProposalKeepsInv(u, p);
    var v := u.(proposals := u.proposals[p.id := p]);
    BeginSetsPhase(v, p.id);
    SetPhaseKeepsInv(v, p.id, Open);
  }

  /** Saving an open proposal again writes nothing. */
  lemma RegisterAgain(t: Tables, r: Request, p: Proposal)
    requires Inv(t) && p.id in t.states && r.id in t.requests && t.requests[r.id] == r && r.id == p.request
    requires p.id in t.proposals && t.proposals[p.id] == p
    ensures Register(t, r, p) == t
  {
    StateStartsFromPhase(t, p.id);
    BeginSetsPhase(t, p.id);
    assert t.requests[r.id := r] == t.requests && t.proposals[p.id := p] == t.proposals;
  }

  datatype Op =
    | SaveRequest(r: Request)
    | Save(r: Request, p: Proposal, now: int)
    | Read(id: nat, now: int)
    | Status(id: nat, actor: int, now: int)
    | Cancel(id: nat, actor: int, now: int)

  /** The contracts of the request and proposal objects passed in. */
  predicate Typed(op: Op) {
    (op.SaveRequest? || op.Save? ==> op.r.requester > 0) && (op.Save? ==> WellTimed(op.p))
  }

  function Kept(t: Tables, r: Result<(Tables, View), Error>): Tables { if r.Success? then r.value.0 else t }

  function Apply(t: Tables, op: Op): Tables {
    match op
    case SaveRequest(r) => var s := RecoveryDrafts.SaveRequest(t, r); if s.Success? then s.value else t
    case Save(r, p, now) => var s := RecoveryDrafts.Save(t, r, p, now); if s.Success? then s.value else t
    case Read(id, now) => RecoveryDrafts.Read(t, id, now).0
    case Status(id, actor, now) => Kept(t, RecoveryDrafts.Status(t, id, actor, now))
    case Cancel(id, actor, now) => Kept(t, RecoveryDrafts.Cancel(t, id, actor, now))
  }

  /** What one operation may do to the phase of one proposal. */
  predicate Moves(p: Proposal, requester: int, op: Op, ph: Phase, ph2: Phase) {
    || ph2 == ph
    || (ph == Open && !op.SaveRequest? && ph2 == Settle(p, Open, op.now))
    || (ph == Open && op.Cancel? && op.actor == requester && p.created <= op.now < p.expires
        && ph2 == CancelledAt(op.now))
  }

  /** One operation keeps every proposal and its request, and moves phases only as the clock or its owner may. */
  predicate Follows(t: Tables, op: Op, u: Tables) {
    && (forall id :: id in t.requests ==> id in u.requests && u.requests[id] == t.requests[id])
    && (forall id :: id in t.proposals ==>
          && id in u.proposals && u.proposals[id] == t.proposals[id] && t.proposals[id].request in t.requests
          && Moves(t.proposals[id], Requester(t, id), op, PhaseIn(t, id), PhaseIn(u, id)))
  }

  lemma SamePhases(t: Tables, op: Op)
    requires Inv(t)
    ensures Follows(t, op, t)
  {
    forall id | id in t.proposals ensures t.proposals[id].request in t.requests {
      assert RowOk(t, id);
    }
  }

  lemma SetPhaseFollows(t: Tables, op: Op, id: nat, ph: Phase)
    requires Inv(t) && id in t.proposals && t.proposals[id].request in t.requests && PhaseOk(t.proposals[id], ph)
    requires Moves(t.proposals[id], Requester(t, id), op, PhaseIn(t, id), ph)
    ensures Follows(t, op, SetPhase(t, id, ph))
  {
    SamePhases(t, op);
    SetPhaseKeepsInv(t, id, ph);
  }

  lemma StateStep(t: Tables, op: Op, id: nat, actor: int, now: int)
    requires Inv(t) && !op.SaveRequest? && op.now == now
    ensures var u := Kept(t, StateLocked(t, id, actor, now)); Inv(u) && Follows(t, op, u)
  {
    SamePhases(t, op);
    if id in t.proposals {
      StateLockedRefines(t, id, actor, now);
      StateStartsFromPhase(t, id);
      var ph := Settle(t.proposals[id], PhaseIn(t, id), now);
      SetPhaseKeepsInv(t, id, ph);
      SetPhaseFollows(t, op, id, ph);
    }
  }

  lemma CancelStep(t: Tables, op: Op)
    requires Inv(t) && op.Cancel?
    ensures Inv(Apply(t, op)) && Follows(t, op, Apply(t, op))
  {
    SamePhases(t, op);
    if op.id in t.proposals {
      CancelRefines(t, op.id, op.actor, op.now);
      StateStartsFromPhase(t, op.id);
      if Apply(t, op) != t {
        var p := t.proposals[op.id];
        var ph := Settle(p, PhaseIn(t, op.id), op.now);
        var end := if ph == Open then CancelledAt(op.now) else ph;
        SetPhaseKeepsInv(t, op.id, end);
        SetPhaseFollows(t, op, op.id, end);
      }
    }
  }

  lemma SaveAgain(t: Tables, r: Request, p: Proposal, now: int)
    requires Inv(t) && p.id in t.proposals && RecoveryDrafts.Save(t, r, p, now).Success?
    ensures Kept(t, StateLocked(t, p.id, r.requester, now)) == RecoveryDrafts.Save(t, r, p, now).value
  {
    var s := StateLocked(t, p.id, r.requester, now);
    StateLockedRefines(t, p.id, r.requester, now);
    StateStartsFromPhase(t, p.id);
    SetPhaseKeepsInv(t, p.id, Settle(p, PhaseIn(t, p.id), now));
    RegisterAgain(s.value.0, r, p);
  }

  lemma SaveKnown(t: Tables, op: Op)
    requires Inv(t) && op.Save? && Typed(op) && op.p.id in t.proposals
    ensures Inv(Apply(t, op)) && Follows(t, op, Apply(t, op))
  {
    SamePhases(t, op);
    if RecoveryDrafts.Save(t, op.r, op.p, op.now).Success? {
      StateStep(t, op, op.p.id, op.r.requester, op.now);
      SaveAgain(t, op.r, op.p, op.now);
    }
  }

  lemma SaveStep(t: Tables, op: Op)
    requires Inv(t) && op.Save? && Typed(op)
    ensures Inv(Apply(t, op)) && Follows(t, op, Apply(t, op))
  {
    if op.p.id in t.proposals {
      SaveKnown(t, op);
    } else {
      SamePhases(t, op);
      if RecoveryDrafts.Save(t, op.r, op.p, op.now).Success? { RegisterNew(t, op.r, op.p); }
    }
  }

  lemma ApplyKeepsInv(t: Tables, op: Op)
    requires Inv(t) && Typed(op)
    ensures Inv(Apply(t, op)) && Follows(t, op, Apply(t, op))
  {
    match op
    case SaveRequest(r) =>
      SamePhases(t, op);
      if !(r.id in t.requests && t.requests[r.id] != r) { AddRequestKeepsInv(t, r); }
    case Save(_, _, _) => SaveStep(t, op);
    case Read(id, now) =>
      SamePhases(t, op);
      if id in t.proposals { StateStep(t, op, id, Requester(t, id), now); }
    case Status(id, actor, now) => StateStep(t, op, id, actor, now);
    case Cancel(_, _, _) => CancelStep(t, op);
  }

  function Run(t: Tables, ops: seq<Op>): Tables
    decreases |ops|
  {
    if ops == [] then t else Run(Apply(t, ops[0]), ops[1..])
  }

  predicate AllTyped(ops: seq<Op>) { forall op :: op in ops ==> Typed(op) }

  lemma {:induction false} RunKeepsInv(t: Tables, ops: seq<Op>)
    requires Inv(t) && AllTyped(ops)
    ensures Inv(Run(t, ops))
    decreases |ops|
  {
    if ops != [] {
      ApplyKeepsInv(t, ops[0]);
      RunKeepsInv(Apply(t, ops[0]), ops[1..]);
    }
  }

  /** A database from before the state tables existed: proposals, and no history at all. */
  predicate Legacy(t: Tables) {
    && t.states == map[] && t.events == map[]
    && (forall id :: id in t.proposals ==>
          t.proposals[id].id == id && WellTimed(t.proposals[id]) && t.proposals[id].request in t.requests)
    && (forall i, j :: i in t.proposals && j in t.proposals && t.proposals[i].request == t.proposals[j].request ==>
        i == j)
    && (forall r :: r in t.requests ==> t.requests[r].id == r && t.requests[r].requester > 0)
  }

  /** Over every run from an empty or legacy database, the strict checker never rejects what is stored. */
  lemma HistoryIsNeverRejected(t: Tables, ops: seq<Op>, id: nat, actor: int, now: int)
    requires Legacy(t) && AllTyped(ops) && id in Run(t, ops).proposals
    ensures var u := Run(t, ops); var p := u.proposals[id];
            && p.request in u.requests
            && (StateLocked(u, id, actor, now).Success? <==> actor == Requester(u, id) && now >= p.created)
            && (StateLocked(u, id, actor, now).Failure? ==>
                  StateLocked(u, id, actor, now).error in {BadActor, NotRequester, BadMoment})
  {
    RunKeepsInv(t, ops);
    var u := Run(t, ops);
    StateStartsFromPhase(u, id);
    StateLockedRefines(u, id, actor, now);
  }

  /** Every stored history is a draft event and at most one end, made by the owner in time or by the deadline. */
  lemma StoredHistory(t: Tables, ops: seq<Op>, id: nat)
    requires Legacy(t) && AllTyped(ops) && id in Run(t, ops).states
    ensures var u := Run(t, ops);
            && id in u.proposals && u.proposals[id].request in u.requests && PhaseOk(u.proposals[id], PhaseIn(u, id))
            && u.states[id] == CurrentOf(PhaseIn(u, id))
            && Log(u, id) == LogOf(u.proposals[id], Requester(u, id), PhaseIn(u, id))
  {
    RunKeepsInv(t, ops);
    StoredPhase(Run(t, ops), id);
  }

  /** An ended proposal stays as it ended, under any later operation and any clock. */
  lemma {:induction false} EndsAreFinal(t: Tables, ops: seq<Op>, id: nat)
    requires Inv(t) && AllTyped(ops) && id in t.proposals && PhaseIn(t, id) != Open
    ensures id in Run(t, ops).proposals && Run(t, ops).proposals[id] == t.proposals[id]
    ensures PhaseIn(Run(t, ops), id) == PhaseIn(t, id)
    decreases |ops|
  {
    if ops != [] {
      ApplyKeepsInv(t, ops[0]);
      EndsAreFinal(Apply(t, ops[0]), ops[1..], id);
    }
  }

  lemma Reread(t: Tables, id: nat, ph: Phase, later: int)
    requires Inv(t) && id in t.proposals && PhaseOk(t.proposals[id], ph)
    requires later >= t.proposals[id].created && Settle(t.proposals[id], ph, later) == ph
    ensures t.proposals[id].request in t.requests
    ensures var u := SetPhase(t, id, ph);
            RecoveryDrafts.Status(u, id, Requester(t, id), later)
            == Success((u, ViewOf(t.proposals[id], Requester(t, id), ph)))
  {
    StateStartsFromPhase(t, id);
    SetPhaseKeepsInv(t, id, ph);
    var u := SetPhase(t, id, ph);
    StateLockedRefines(u, id, Requester(t, id), later);
    assert SetPhase(u, id, ph) == u;
  }

  /** What status returned is what an immediate read sees, and what any later one sees once the proposal ended. */
  lemma StatusIsWhatWasStored(t: Tables, id: nat, actor: int, now: int, later: int)
    requires Inv(t) && id in t.proposals
    ensures var r := RecoveryDrafts.Status(t, id, actor, now);
            r.Success? && (later == now || (r.value.1.state != Draft && later >= t.proposals[id].created)) ==>
              RecoveryDrafts.Status(r.value.0, id, actor, later) == r
  {
    StateStartsFromPhase(t, id);
    StateLockedRefines(t, id, actor, now);
    var ph := Settle(t.proposals[id], PhaseIn(t, id), now);
    if later >= t.proposals[id].created && Settle(t.proposals[id], ph, later) == ph { Reread(t, id, ph, later); }
  }

  /** Likewise cancel, which always leaves the proposal ended. */
  lemma CancelIsWhatWasStored(t: Tables, id: nat, actor: int, now: int, later: int)
    requires Inv(t) && id in t.proposals
    ensures var r := RecoveryDrafts.Cancel(t, id, actor, now);
            r.Success? && later >= t.proposals[id].created ==>
              r.value.1.state != Draft && RecoveryDrafts.Status(r.value.0, id, actor, later) == r
  {
    StateStartsFromPhase(t, id);
    CancelRefines(t, id, actor, now);
    var ph := Settle(t.proposals[id], PhaseIn(t, id), now);
    var end := if ph == Open then CancelledAt(now) else ph;
    if t.proposals[id].created <= now && later >= t.proposals[id].created { Reread(t, id, end, later); }
  }

  /** Read commits the expiry it finds; save finds the same expiry and rolls it back. */
  lemma ExpiryOnReadAndSave(t: Tables, r: Request, p: Proposal, now: int)
    requires Inv(t) && p.id in t.proposals && t.proposals[p.id] == p && p.request in t.requests
    requires t.requests[p.request] == r
    requires Matches(r, p) && PhaseIn(t, p.id) == Open && now >= p.expires
    ensures RecoveryDrafts.Read(t, p.id, now) == (SetPhase(t, p.id, Lapsed), Failure(Ended))
    ensures RecoveryDrafts.Save(t, r, p, now) == Failure(Ended) && Apply(t, Save(r, p, now)) == t
  {
    assert RowOk(t, p.id);
    StateLockedRefines(t, p.id, r.requester, now);
  }

  /** A proposal can be used exactly while it is open and its day has not passed. */
  lemma ReadableExactlyWhileOpen(t: Tables, id: nat, now: int)
    requires Inv(t) && id in t.proposals
    ensures RecoveryDrafts.Read(t, id, now).1 == Success(t.proposals[id])
            <==> PhaseIn(t, id) == Open && t.proposals[id].created <= now < t.proposals[id].expires
    ensures RecoveryDrafts.Read(t, id, now).1.Success? ==> RecoveryDrafts.Read(t, id, now).1.value == t.proposals[id]
  {
    StateStartsFromPhase(t, id);
    StateLockedRefines(t, id, Requester(t, id), now);
  }

  /** Every history the checker accepts is one the store can write: no accepted log is out of reach. */
  lemma EveryAcceptedLogIsReachable(r: Request, p: Proposal, current: Current, log: seq<Entry>) returns (ops: seq<Op>)
    requires r.requester > 0 && WellTimed(p) && Matches(r, p) && Accepted(p, r.requester, current, log)
    ensures AllTyped(ops) && p.id in Run(EMPTY, ops).states
    ensures Run(EMPTY, ops).states[p.id] == current && Log(Run(EMPTY, ops), p.id) == log
  {
    AcceptsExactlyPhases(p, r.requester, current, log);
    var ph :| PhaseOk(p, ph) && current == CurrentOf(ph) && log == LogOf(p, r.requester, ph);
    ops := OpsFor(r, p, ph);
    match ph
    case Open => OpenIsReachable(r, p);
    case CancelledAt(at) => CancelledIsReachable(r, p, at);
    case Lapsed => LapsedIsReachable(r, p);
  }

  /** Registered when it was created, and ended as the phase says. */
  function OpsFor(r: Request, p: Proposal, ph: Phase): seq<Op> {
    var save := Save(r, p, p.created);
    match ph
    case Open => [save]
    case CancelledAt(at) => [save, Cancel(p.id, r.requester, at)]
    case Lapsed => [save, Status(p.id, r.requester, p.expires)]
  }

  /** The stored history is the one of the phase. */
  predicate Holds(t: Tables, r: Request, p: Proposal, ph: Phase) {
    p.id in t.states && t.states[p.id] == CurrentOf(ph) && Log(t, p.id) == LogOf(p, r.requester, ph)
  }

  lemma Registered(r: Request, p: Proposal)
    requires r.requester > 0 && WellTimed(p) && Matches(r, p)
    ensures var t := Apply(EMPTY, Save(r, p, p.created));
            && Inv(t) && p.id in t.proposals && t.proposals[p.id] == p && Requester(t, p.id) == r.requester
            && PhaseIn(t, p.id) == Open && Holds(t, r, p, Open)
  {
    RegisterNew(EMPTY, r, p);
    StoredPhase(Apply(EMPTY, Save(r, p, p.created)), p.id);
  }

  lemma OpenIsReachable(r: Request, p: Proposal)
    requires r.requester > 0 && WellTimed(p) && Matches(r, p)
    ensures AllTyped(OpsFor(r, p, Open)) && Holds(Run(EMPTY, OpsFor(r, p, Open)), r, p, Open)
  {
    Registered(r, p);
    assert Run(EMPTY, OpsFor(r, p, Open)) == Run(Apply(EMPTY, Save(r, p, p.created)), []);
  }

  lemma CancelledIsReachable(r: Request, p: Proposal, at: int)
    requires r.requester > 0 && WellTimed(p) && Matches(r, p) && PhaseOk(p, CancelledAt(at))
    ensures var ops := OpsFor(r, p, CancelledAt(at)); AllTyped(ops) && Holds(Run(EMPTY, ops), r, p, CancelledAt(at))
  {
    Registered(r, p);
    CancelRefines(Apply(EMPTY, Save(r, p, p.created)), p.id, r.requester, at);
    RunTwo(Save(r, p, p.created), Cancel(p.id, r.requester, at));
  }

  lemma LapsedIsReachable(r: Request, p: Proposal)
    requires r.requester > 0 && WellTimed(p) && Matches(r, p)
    ensures AllTyped(OpsFor(r, p, Lapsed)) && Holds(Run(EMPTY, OpsFor(r, p, Lapsed)), r, p, Lapsed)
  {
    Registered(r, p);
    StateLockedRefines(Apply(EMPTY, Save(r, p, p.created)), p.id, r.requester, p.expires);
    RunTwo(Save(r, p, p.created), Status(p.id, r.requester, p.expires));
  }

  lemma RunTwo(a: Op, b: Op)
    ensures Run(EMPTY, [a, b]) == Apply(Apply(EMPTY, a), b)
  {
    assert [a, b][1..] == [b] && [b][1..] == [];
    assert Run(Apply(EMPTY, a), [b]) == Run(Apply(Apply(EMPTY, a), b), []);
  }
}
