/**
 The draft store as the program has it: an object over four tables, each public method one transaction
 that is rolled back when it raises.
 */
module RecoveryDraftStore {
  import opened Wrappers
  import opened D = RecoveryDrafts

  class RecoveryDraftStore {
    var requests: map<nat, Request>
    var proposals: map<nat, Proposal>
    var states: map<nat, Current>
    var events: map<nat, seq<Entry>>

    function View(): Tables
      reads this
    {
      Tables(requests, proposals, states, events)
    }

    constructor (t: Tables)
      ensures View() == t
    {
      requests, proposals, states, events := t.requests, t.proposals, t.states, t.events;
    }

    method Rollback(t: Tables)
      modifies this
      ensures View() == t
    {
      requests, proposals, states, events := t.requests, t.proposals, t.states, t.events;
    }

    method TransitionLocked(id: nat, version: int, from: State, to: State, at: int, actor: Option<int>)
      returns (e: Option<Error>)
      modifies this
      ensures match Transition(old(View()), id, version, from, to, at, actor)
              case Success(t) => View() == t && e == None
              case Failure(f) => View() == old(View()) && e == Some(f)
    {
      if (to != Cancelled && to != Expired) || from != Draft { return Some(BadTransition); }
      if id !in states || states[id] != Current(from, version) { return Some(StateChanged); }
      if HasVersion(Log(View(), id), version + 1) { return Some(ConstraintViolated); }
      events := events[id := Put(Log(View(), id), Entry(version + 1, Some(from), to, at, actor))];
      states := states[id := Current(to, version + 1)];
      e := None;
    }

    /** Inside a transaction: on an error the caller rolls back. */
    method StateLocked(id: nat, actor: int, now: int) returns (r: Result<D.View, Error>)
      modifies this
      ensures match D.StateLocked(old(View()), id, actor, now)
              case Success((t, v)) => View() == t && r == Success(v)
              case Failure(f) => r == Failure(f)
    {
      if actor <= 0 { return Failure(BadActor); }
      if id !in proposals || proposals[id].request !in requests { return Failure(Missing); }
      var p := proposals[id];
      var requester := requests[p.request].requester;
      if requester != actor { return Failure(NotRequester); }
      if id !in states {
        states := states[id := Current(Draft, 1)];
        events := events[id := PutOrIgnore(Log(View(), id), Opening(p, actor))];
        assert View() == Begin(old(View()), id, p, actor);
      }
      if id !in states { return Failure(HistoryMismatch); }
      var current := states[id];
      var log := Log(View(), id);
      if !Accepted(p, requester, current, log) { return Failure(HistoryMismatch); }
      if now < p.created { return Failure(BadMoment); }
      if current.state == Draft && now >= p.expires {
        var e := TransitionLocked(id, current.version, Draft, Expired, p.expires, None);
        if e.Some? { return Failure(e.value); }
        current := Current(Expired, current.version + 1);
        log := log + [Entry(current.version, Some(Draft), Expired, p.expires, None)];
      }
      r := Success(D.View(id, current.state, current.version, p.expires, log));
    }

    method SaveRequest(r: Request) returns (e: Option<Error>)
      modifies this
      ensures match D.SaveRequest(old(View()), r)
              case Success(t) => View() == t && e == None
              case Failure(f) => View() == old(View()) && e == Some(f)
    {
      if r.id in requests && requests[r.id] != r { return Some(RequestConflict); }
      requests := requests[r.id := r];
      e := None;
    }

    method Save(r: Request, p: Proposal, now: int) returns (e: Option<Error>)
      modifies this
      ensures match D.Save(old(View()), r, p, now)
              case Success(t) => View() == t && e == None
              case Failure(f) => View() == old(View()) && e == Some(f)
    {
      var before := View();
      if !Matches(r, p) { return Some(Mismatch); }
      if r.id in requests && requests[r.id] != r { return Some(RequestConflict); }
      if OtherRegistered(before, p) { return Some(OtherProposal); }
      if p.id in proposals && proposals[p.id] != p { return Some(ProposalConflict); }
      if p.id in proposals {
        var s := StateLocked(p.id, r.requester, now);
        if s.Failure? || s.value.state != Draft {
          Rollback(before);
          return Some(if s.Failure? then s.error else Ended);
        }
      }
      requests := requests[r.id := r];
      proposals := proposals[p.id := p];
      if p.id !in states { states := states[p.id := Current(Draft, 1)]; }
      events := events[p.id := PutOrIgnore(Log(View(), p.id), Opening(p, r.requester))];
      e := None;
    }

    /** Raises for an ended proposal only after the transaction committed. */
    method Read(id: nat, now: int) returns (r: Result<Proposal, Error>)
      modifies this
      ensures (View(), r) == D.Read(old(View()), id, now)
    {
      var before := View();
      if id !in proposals || proposals[id].request !in requests { return Failure(Missing); }
      var p := proposals[id];
      var s := StateLocked(id, requests[p.request].requester, now);
      if s.Failure? {
        Rollback(before);
        return Failure(s.error);
      }
      r := if s.value.state != Draft then Failure(Ended) else Success(p);
    }

    method Status(id: nat, actor: int, now: int) returns (r: Result<D.View, Error>)
      modifies this
      ensures match D.Status(old(View()), id, actor, now)
              case Success((t, v)) => View() == t && r == Success(v)
              case Failure(f) => View() == old(View()) && r == Failure(f)
    {
      var before := View();
      r := StateLocked(id, actor, now);
      if r.Failure? { Rollback(before); }
    }

    method Cancel(id: nat, actor: int, now: int) returns (r: Result<D.View, Error>)
      modifies this
      ensures match D.Cancel(old(View()), id, actor, now)
              case Success((t, v)) => View() == t && r == Success(v)
              case Failure(f) => View() == old(View()) && r == Failure(f)
    {
      var before := View();
      r := StateLocked(id, actor, now);
      if r.Failure? {
        Rollback(before);
      } else if r.value.state == Draft {
        var v := r.value;
        var e := TransitionLocked(id, v.version, Draft, Cancelled, now, Some(actor));
        if e.Some? {
          Rollback(before);
          return Failure(e.value);
        }
        r := Success(v.(state := Cancelled, version := v.version + 1,
                        events := v.events + [Entry(v.version + 1, Some(Draft), Cancelled, now, Some(actor))]));
      }
    }
  }
}
