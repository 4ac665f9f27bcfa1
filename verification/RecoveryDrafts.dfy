/**
 The draft store (ai-ops/src/ai_ops/c_recovery.py:365-570): requests, proposals, one state row and an
 event log for each proposal.  Each operation is one transaction; one that raises rolls back, but
 `read` raises only after it has committed.
 */
module RecoveryDrafts {
  import opened Wrappers

  const DAY: int := 86400000000  // microseconds

  datatype Request = Request(id: nat, requester: int, incident: string, run: string, target: string, bundle: string,
                             report: string, failure: Option<string>)

  datatype Proposal = Proposal(id: nat, request: nat, incident: string, run: string, target: string, bundle: string,
                               report: string, verified: bool, failure: Option<string>, change: string, created: int,
                               expires: int)

  datatype State = Draft | Cancelled | Expired | Other(name: string)
  datatype Current = Current(state: State, version: int)
  datatype Entry = Entry(version: int, from: Option<State>, to: State, at: int, actor: Option<int>)

  datatype Tables = Tables(requests: map<nat, Request>, proposals: map<nat, Proposal>,
                           states: map<nat, Current>, events: map<nat, seq<Entry>>)

  /** What status, cancel and the other operations see of a proposal. */
  datatype View = View(id: nat, state: State, version: int, expires: int, events: seq<Entry>)

  datatype Error =
    | RequestConflict | Mismatch | OtherProposal | ProposalConflict | Ended | BadActor | Missing | NotRequester
    | HistoryMismatch | BadMoment | BadTransition | StateChanged | ConstraintViolated

  const EMPTY := Tables(map[], map[], map[], map[])

  /** The contract every proposal object satisfies. */
  predicate WellTimed(p: Proposal) { 0 < p.expires - p.created <= DAY }

  predicate Matches(r: Request, p: Proposal) {
    && r.id == p.request && r.incident == p.incident && r.run == p.run && r.target == p.target && r.bundle == p.bundle
    && r.report == p.report
    && (p.verified ==> r.failure == p.failure)
  }

  function Log(t: Tables, id: nat): seq<Entry> { if id in t.events then t.events[id] else [] }

  predicate HasVersion(log: seq<Entry>, version: int) { exists e :: e in log && e.version == version }

  /** Rows come back ordered by version. */
  function Put(log: seq<Entry>, e: Entry): seq<Entry> {
    if log == [] || log[|log| - 1].version < e.version then log + [e]
    else Put(log[..|log| - 1], e) + [log[|log| - 1]]
  }

  function PutOrIgnore(log: seq<Entry>, e: Entry): seq<Entry> {
    if HasVersion(log, e.version) then log else Put(log, e)
  }

  function Opening(p: Proposal, actor: int): Entry { Entry(1, None, Draft, p.created, Some(actor)) }

  /** The draft event and state row, unless they are there already. */
  function Begin(t: Tables, id: nat, p: Proposal, actor: int): Tables {
    t.(states := if id in t.states then t.states else t.states[id := Current(Draft, 1)],
       events := t.events[id := PutOrIgnore(Log(t, id), Opening(p, actor))])
  }

  /** The strict check of a stored log against its proposal, its request and its state row. */
  predicate Accepted(p: Proposal, requester: int, current: Current, log: seq<Entry>) {
    && 1 <= |log| <= 2
    && log[0].version == 1 && log[0].from == None && log[0].to == Draft
    && log[0].actor == Some(requester) && log[0].at == p.created
    && log[|log| - 1].version == current.version && log[|log| - 1].to == current.state
    && (forall i :: 0 <= i < |log| ==> log[i].version == i + 1 && (i > 0 ==> log[i].from == Some(log[i - 1].to)))
    && (|log| == 2 ==>
          && (log[1].to == Cancelled || log[1].to == Expired)
          && (log[1].to == Expired ==> log[1].actor == None && log[1].at == p.expires)
          && (log[1].to == Cancelled ==> log[1].actor == Some(requester) && p.created <= log[1].at < p.expires))
  }

  function Transition(t: Tables, id: nat, version: int, from: State, to: State, at: int, actor: Option<int>)
    : Result<Tables, Error>
  {
    if (to != Cancelled && to != Expired) || from != Draft then Failure(BadTransition)
    else if id !in t.states || t.states[id] != Current(from, version) then Failure(StateChanged)
    else if HasVersion(Log(t, id), version + 1) then Failure(ConstraintViolated)
    else Success(t.(states := t.states[id := Current(to, version + 1)],
                    events := t.events[id := Put(Log(t, id), Entry(version + 1, Some(from), to, at, actor))]))
  }

  /** Ownership, history and expiry, checked together under the lock. */
  function StateLocked(t: Tables, id: nat, actor: int, now: int): Result<(Tables, View), Error> {
    if actor <= 0 then Failure(BadActor)
    else if id !in t.proposals || t.proposals[id].request !in t.requests then Failure(Missing)
    else
      var p := t.proposals[id];
      var requester := t.requests[p.request].requester;
      if requester != actor then Failure(NotRequester)
      else
        var u := if id in t.states then t else Begin(t, id, p, actor);
        if id !in u.states || !Accepted(p, requester, u.states[id], Log(u, id)) then Failure(HistoryMismatch)
        else if now < p.created then Failure(BadMoment)
        else
          var current := u.states[id];
          var log := Log(u, id);
          if current.state == Draft && now >= p.expires then
            var r := Transition(u, id, current.version, Draft, Expired, p.expires, None);
            if r.Failure? then Failure(r.error)
            else Success((r.value, View(id, Expired, current.version + 1, p.expires,
                                        log + [Entry(current.version + 1, Some(Draft), Expired, p.expires, None)])))
          else Success((u, View(id, current.state, current.version, p.expires, log)))
  }

  function SaveRequest(t: Tables, r: Request): Result<Tables, Error> {
    if r.id in t.requests && t.requests[r.id] != r then Failure(RequestConflict)
    else Success(t.(requests := t.requests[r.id := r]))
  }

  predicate OtherRegistered(t: Tables, p: Proposal) {
    exists id :: id in t.proposals && t.proposals[id].request == p.request && t.proposals[id] != p
  }

  function Save(t: Tables, r: Request, p: Proposal, now: int): Result<Tables, Error> {
    if !Matches(r, p) then Failure(Mismatch)
    else if r.id in t.requests && t.requests[r.id] != r then Failure(RequestConflict)
    else if OtherRegistered(t, p) then Failure(OtherProposal)
    else if p.id in t.proposals && t.proposals[p.id] != p then Failure(ProposalConflict)
    else if p.id in t.proposals then
      match StateLocked(t, p.id, r.requester, now)
      case Failure(e) => Failure(e)
      case Success((u, v)) => if v.state != Draft then Failure(Ended) else Success(Register(u, r, p))
    else Success(Register(t, r, p))
  }

  function Register(t: Tables, r: Request, p: Proposal): Tables {
    Begin(t.(requests := t.requests[r.id := r], proposals := t.proposals[p.id := p]), p.id, p, r.requester)
  }

  /** The expiry a read discovers is committed even though the read then fails. */
  function Read(t: Tables, id: nat, now: int): (Tables, Result<Proposal, Error>) {
    if id !in t.proposals || t.proposals[id].request !in t.requests then (t, Failure(Missing))
    else
      match StateLocked(t, id, t.requests[t.proposals[id].request].requester, now)
      case Failure(e) => (t, Failure(e))
      case Success((u, v)) => (u, if v.state != Draft then Failure(Ended) else Success(t.proposals[id]))
  }

  function Status(t: Tables, id: nat, actor: int, now: int): Result<(Tables, View), Error> {
    StateLocked(t, id, actor, now)
  }

  function Cancel(t: Tables, id: nat, actor: int, now: int): Result<(Tables, View), Error> {
    match StateLocked(t, id, actor, now)
    case Failure(e) => Failure(e)
    case Success((u, v)) =>
      if v.state != Draft then Success((u, v))
      else
        match Transition(u, id, v.version, Draft, Cancelled, now, Some(actor))
        case Failure(e) => Failure(e)
        case Success(w) =>
          Success((w, View(id, Cancelled, v.version + 1, v.expires,
                           v.events + [Entry(v.version + 1, Some(Draft), Cancelled, now, Some(actor))])))
  }
}
