/**
 What the draft store takes in and what it serves: which requests and proposals are registered, and that of
 whatever is stored only an untouched history is ever served.
 */
module RecoveryDraftsChecks {
  import opened Wrappers
  import opened RecoveryDrafts
  import opened RecoveryDraftsLaws

  /** Same request, in every field the two objects share; the failure only if the proposal binds it. */
  predicate SameCase(r: Request, p: Proposal) {
    && p.request == r.id && (p.incident, p.run, p.target) == (r.incident, r.run, r.target)
    && (p.bundle, p.report) == (r.bundle, r.report) && (p.verified ==> p.failure == r.failure)
  }

  /** A request is stored once: the same content again changes nothing, other content is refused. */
  lemma RequestSavedExactly(t: Tables, r: Request)
    ensures var u := Apply(t, Op.SaveRequest(r));
            if r.id in t.requests then u == t
            else u.requests == t.requests[r.id := r] && u == t.(requests := u.requests)
    ensures RecoveryDrafts.SaveRequest(t, r).Success? <==> (r.id in t.requests ==> t.requests[r.id] == r)
    ensures RecoveryDrafts.SaveRequest(t, r).Failure? ==> RecoveryDrafts.SaveRequest(t, r).error == RequestConflict
  {
    if r.id in t.requests && t.requests[r.id] == r { assert t.requests[r.id := r] == t.requests; }
  }

  /** Nothing stored stands in the way: the request is the same, and it has no other proposal. */
  ghost predicate NoConflict(t: Tables, r: Request, p: Proposal) {
    && (r.id in t.requests ==> t.requests[r.id] == r)
    && (p.id in t.proposals ==> t.proposals[p.id] == p)
    && forall id :: id in t.proposals && t.proposals[id].request == p.request ==> t.proposals[id] == p
  }

  /** In every reachable database a draft is saved exactly if it fits, meets no conflict, and did not end. */
  lemma SavedExactly(t: Tables, r: Request, p: Proposal, now: int)
    requires Inv(t) && r.requester > 0 && WellTimed(p)
    ensures RecoveryDrafts.Save(t, r, p, now).Success? <==>
              && SameCase(r, p) && NoConflict(t, r, p)
              && (p.id in t.proposals ==> PhaseIn(t, p.id) == Open && p.created <= now < p.expires)
    ensures var u := Apply(t, Save(r, p, now));
            if RecoveryDrafts.Save(t, r, p, now).Failure? then u == t
            else && u.requests == t.requests[r.id := r] && u.proposals == t.proposals[p.id := p]
                 && Inv(u) && PhaseIn(u, p.id) == Open && p.id in u.states
                 && (forall id :: id in t.proposals ==> PhaseIn(u, id) == PhaseIn(t, id))
  {
    assert Matches(r, p) <==> SameCase(r, p);
    if SameCase(r, p) && NoConflict(t, r, p) {
      if p.id in t.proposals { KnownDraft(t, r, p, now); } else { RegisterNew(t, r, p); }
    }
  }

  /** A draft that is there already is read under the lock, and stays as it is while it is open. */
  lemma KnownDraft(t: Tables, r: Request, p: Proposal, now: int)
    requires Inv(t) && r.requester > 0 && WellTimed(p) && SameCase(r, p) && NoConflict(t, r, p) && p.id in t.proposals
    ensures RecoveryDrafts.Save(t, r, p, now).Success?
            <==> PhaseIn(t, p.id) == Open && p.created <= now < p.expires
    ensures RecoveryDrafts.Save(t, r, p, now).Success? ==>
              var u := RecoveryDrafts.Save(t, r, p, now).value;
              && u.requests == t.requests[r.id := r] && u.proposals == t.proposals[p.id := p] && Inv(u)
              && PhaseIn(u, p.id) == Open && p.id in u.states
              && (forall id :: id in t.proposals ==> PhaseIn(u, id) == PhaseIn(t, id))
  {
    assert RowOk(t, p.id);
    assert t.requests[p.request] == r;
    StateLockedRefines(t, p.id, r.requester, now);
    var settled := Settle(p, PhaseIn(t, p.id), now);
    if settled == Open && p.created <= now {
      var v := SetPhase(t, p.id, Open);
      SetPhaseKeepsInv(t, p.id, Open);
      RegisterAgain(v, r, p);
    }
  }

  // ---- whatever is stored ----

  /** The state row and log of the proposal are those of some phase it can have. */
  ghost predicate Untouched(t: Tables, id: nat, requester: int) {
    && id in t.proposals && id in t.states
    && exists ph :: PhaseOk(t.proposals[id], ph) && t.states[id] == CurrentOf(ph)
                    && Log(t, id) == LogOf(t.proposals[id], requester, ph)
  }

  /**
   Of any database whatever, forged rows included: a proposal with a state row is served exactly to its requester,
   from its creation on, and only if row and log are what the store could have written.
   */
  lemma ServedExactly(t: Tables, id: nat, actor: int, now: int)
    requires id in t.states
    ensures StateLocked(t, id, actor, now).Success? <==>
              && actor > 0 && id in t.proposals && t.proposals[id].request in t.requests
              && t.requests[t.proposals[id].request].requester == actor && now >= t.proposals[id].created
              && Untouched(t, id, actor)
    ensures StateLocked(t, id, actor, now).Success? ==>
              StateLocked(t, id, actor, now).value.0.proposals == t.proposals
  {
    if id in t.proposals {
      AcceptsExactlyPhases(t.proposals[id], actor, t.states[id], Log(t, id));
    }
  }

  /** And read, status, save and cancel serve nothing else. */
  lemma NothingElseIsServed(t: Tables, id: nat, actor: int, r: Request, now: int)
    requires id in t.states && id in t.proposals && t.proposals[id].request in t.requests
    requires !Untouched(t, id, Requester(t, id))
    ensures RecoveryDrafts.Read(t, id, now).1.Failure? && RecoveryDrafts.Read(t, id, now).0 == t
    ensures RecoveryDrafts.Status(t, id, actor, now).Failure? && RecoveryDrafts.Cancel(t, id, actor, now).Failure?
    ensures r == t.requests[t.proposals[id].request] && t.proposals[id].id == id ==>
              RecoveryDrafts.Save(t, r, t.proposals[id], now).Failure?
  {
    ServedExactly(t, id, Requester(t, id), now);
    ServedExactly(t, id, actor, now);
    ServedExactly(t, id, r.requester, now);
  }

  /** An end is written exactly from the draft state and version that were read, and exactly once. */
  lemma EndWrittenExactly(t: Tables, id: nat, version: int, from: State, to: State, at: int, actor: Option<int>)
    ensures var r := Transition(t, id, version, from, to, at, actor);
            && (r.Success? <==> && from == Draft && to in {Cancelled, Expired} && id in t.states
                                && t.states[id].state == Draft && t.states[id].version == version
                                && forall e :: e in Log(t, id) ==> e.version != version + 1)
            && (r.Success? ==>
                  && r.value.states == t.states[id := Current(to, version + 1)]
                  && r.value == t.(states := r.value.states, events := r.value.events)
                  && (forall i :: i != id ==> Log(r.value, i) == Log(t, i))
                  && (Ordered(Log(t, id)) ==> Ordered(Log(r.value, id)))
                  && multiset(Log(r.value, id))
                     == multiset(Log(t, id)) + multiset{Entry(version + 1, Some(Draft), to, at, actor)})
  {
    var e := Entry(version + 1, Some(from), to, at, actor);
    PutAddsOne(Log(t, id), e);
    if Ordered(Log(t, id)) { PutKeepsOrder(Log(t, id), e); }
  }

  predicate Ordered(log: seq<Entry>) { forall i, j :: 0 <= i < j < |log| ==> log[i].version <= log[j].version }

  lemma {:induction false} PutAddsOne(log: seq<Entry>, e: Entry)
    ensures multiset(Put(log, e)) == multiset(log) + multiset{e}
    decreases |log|
  {
    if log != [] && log[|log| - 1].version >= e.version {
      PutAddsOne(log[..|log| - 1], e);
      assert log == log[..|log| - 1] + [log[|log| - 1]];
    }
  }

  lemma {:induction false} PutKeepsOrder(log: seq<Entry>, e: Entry)
    requires Ordered(log)
    ensures Ordered(Put(log, e))
    decreases |log|
  {
    if log != [] && log[|log| - 1].version >= e.version {
      var rest, last := log[..|log| - 1], log[|log| - 1];
      PutKeepsOrder(rest, e);
      PutAddsOne(rest, e);
      forall x | x in Put(rest, e) ensures x.version <= last.version {
        assert x in multiset(Put(rest, e));
        assert x in rest || x == e;
      }
    }
  }
}
