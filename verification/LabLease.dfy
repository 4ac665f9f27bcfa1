/**
 The lab lock (ai-ops/src/ai_ops/b6_coordination.py:29-95): a lease object on an API server that
 accepts a write only against the version it was based on.  Nothing expires.  A client reads, decides
 and writes; the write may arrive late, several times or never, and its answer may be lost.
 */
module LabLease {
  import opened Wrappers

  const COOLDOWN: real := 305.0

  type Holder = string

  /** `scoped` says the object is the lab's own lease: kind, name, labels and no expiry. */
  datatype Lease = Lease(uid: nat, version: nat, scoped: bool, holder: Option<Holder>,
                         acquired: Option<real>, notBefore: Option<real>)

  datatype Write =
    | Take(client: Holder, base: Option<Lease>, at: real)
    | Free(client: Holder, target: Lease, notBefore: real)

  datatype Error = OutOfScope | Held | CoolingDown | NotOwner | Vanished | Unconfirmed

  predicate Later(a: Option<real>, b: real) { a.Some? && a.value > b }

  /** The first half of acquire: what was read and the clock decide what is written. */
  function PlanAcquire(h: Holder, current: Option<Lease>, now: real): Result<Write, Error> {
    match current
    case None => Success(Take(h, None, now))
    case Some(s) =>
      if !s.scoped then Failure(OutOfScope)
      else if s.holder.Some? then Failure(Held)
      else if Later(s.notBefore, now) then Failure(CoolingDown)
      else Success(Take(h, current, now))
  }

  /** The first half of release. */
  function PlanRelease(h: Holder, uid: Option<nat>, verified: bool, started: bool, current: Option<Lease>, now: real)
    : Result<Write, Error>
  {
    if !verified || uid.None? then Failure(NotOwner)
    else
      match current
      case None => Failure(Vanished)
      case Some(s) =>
        if !s.scoped then Failure(OutOfScope)
        else if s.uid != uid.value || s.holder != Some(h) then Failure(NotOwner)
        else Success(Free(h, s, now + if started then COOLDOWN else 0.0))
  }

  /** The API server: create needs absence, replace needs the version and identity it was based on. */
  predicate Fits(server: Option<Lease>, m: Write) {
    match m
    case Take(_, None, _) => server.None?
    case Take(_, Some(b), _) => server.Some? && server.value.version == b.version && server.value.uid == b.uid
    case Free(_, b, _) => server.Some? && server.value.version == b.version && server.value.uid == b.uid
  }

  function Stored(m: Write, next: nat): Lease {
    match m
    case Take(h, None, at) => Lease(next, next, true, Some(h), Some(at), None)
    case Take(h, Some(b), at) => b.(version := next, holder := Some(h), acquired := Some(at))
    case Free(_, b, n) => b.(version := next, holder := None, notBefore := Some(n))
  }

  /** The second half of acquire: the uid to remember, once the answer confirms the holder. */
  function ConfirmAcquire(h: Holder, response: Lease): Result<nat, Error> {
    if !response.scoped then Failure(OutOfScope)
    else if response.holder != Some(h) then Failure(Unconfirmed)
    else Success(response.uid)
  }

  /** The second half of release. */
  function ConfirmRelease(uid: Option<nat>, notBefore: real, response: Lease): Option<Error> {
    if !response.scoped then Some(OutOfScope)
    else if Some(response.uid) != uid || response.holder.Some? || response.notBefore != Some(notBefore)
    then Some(Unconfirmed)
    else None
  }

  /** The object each run makes: it remembers the identity of the lease it took, and nothing else. */
  class LabLease {
    const holder: Holder
    var uid: Option<nat>

    constructor (holder: Holder)
      ensures this.holder == holder && uid == None
    {
      this.holder := holder;
      uid := None;
    }

    method Acquire(current: Option<Lease>, now: real) returns (r: Result<Write, Error>)
      ensures r == PlanAcquire(holder, current, now)
    {
      if current.None? { return Success(Take(holder, None, now)); }
      var lease := current.value;
      if !lease.scoped { return Failure(OutOfScope); }
      if lease.holder.Some? { return Failure(Held); }
      if lease.notBefore.Some? && lease.notBefore.value > now { return Failure(CoolingDown); }
      r := Success(Take(holder, current, now));
    }

    method Acquired(response: Lease) returns (e: Option<Error>)
      modifies this
      ensures match ConfirmAcquire(holder, response)
              case Success(u) => e == None && uid == Some(u)
              case Failure(f) => e == Some(f) && uid == old(uid)
      ensures e == None <==> response.scoped && response.holder == Some(holder)
      ensures uid == if e == None then Some(response.uid) else old(uid)
    {
      if !response.scoped { return Some(OutOfScope); }
      if response.holder != Some(holder) { return Some(Unconfirmed); }
      uid := Some(response.uid);
      e := None;
    }

    method Release(verified: bool, started: bool, current: Option<Lease>, now: real) returns (r: Result<Write, Error>)
      ensures r == PlanRelease(holder, uid, verified, started, current, now)
    {
      if !verified || uid.None? { return Failure(NotOwner); }
      if current.None? { return Failure(Vanished); }
      var lease := current.value;
      if !lease.scoped { return Failure(OutOfScope); }
      if lease.uid != uid.value || lease.holder != Some(holder) { return Failure(NotOwner); }
      r := Success(Free(holder, lease, now + if started then COOLDOWN else 0.0));
    }

    method Released(notBefore: real, response: Lease) returns (e: Option<Error>)
      modifies this
      ensures e == ConfirmRelease(old(uid), notBefore, response)
      ensures e == None <==> && response.scoped && old(uid) == Some(response.uid) && response.holder == None
                             && response.notBefore == Some(notBefore)
      ensures uid == if e == None then None else old(uid)
    {
      if !response.scoped { return Some(OutOfScope); }
      if Some(response.uid) != uid || response.holder.Some? || response.notBefore != Some(notBefore) {
        return Some(Unconfirmed);
      }
      uid := None;
      e := None;
    }
  }
}
