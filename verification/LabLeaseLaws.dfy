/**
 Any number of clients with distinct holder names, in every interleaving of reads, writes that arrive
 late, twice or never, answers that are lost, and an operator who may delete the lease.
 `log` is history: every object the server stored, in commit order.
 */
module LabLeaseLaws {
  import opened Wrappers
  import opened LabLease

  /** `critical` from the moment acquire returns to the moment release is called. */
  datatype Client = Client(uid: Option<nat>, critical: bool, waiting: Option<Write>)

  datatype World = World(server: Option<Lease>, next: nat, clients: map<Holder, Client>,
                         network: set<Write>, log: seq<Lease>, clock: real)

  datatype Event =
    | Acquire(h: Holder, now: real)
    | Release(h: Holder, verified: bool, started: bool, now: real)
    | Arrive(m: Write, heard: bool)
    | GiveUp(h: Holder)
    | Delete

  function ClientOf(w: World, h: Holder): Client { if h in w.clients then w.clients[h] else Client(None, false, None) }

  function With(w: World, h: Holder, c: Client): World { w.(clients := w.clients[h := c]) }

  /** A client sends the write it planned and waits for the answer. */
  function Post(w: World, h: Holder, c: Client, plan: Result<Write, Error>): World {
    if plan.Failure? then With(w, h, c)
    else With(w, h, c.(waiting := Some(plan.value))).(network := w.network + {plan.value})
  }

  /** The client that waited for this write hears how it ended. */
  function Answer(c: Client, m: Write, stored: Option<Lease>): Client {
    if c.waiting != Some(m) then c
    else if stored.None? then c.(waiting := None)
    else if m.Take? then
      match ConfirmAcquire(m.client, stored.value)
      case Success(u) => Client(Some(u), true, None)
      case Failure(_) => c.(waiting := None)
    else if ConfirmRelease(c.uid, m.notBefore, stored.value).None? then Client(None, c.critical, None)
    else c.(waiting := None)
  }

  function Step(w: World, e: Event): World {
    match e
    case Acquire(h, now) =>
      var c := ClientOf(w, h);
      if c.waiting.Some? then w else Post(w, h, c, PlanAcquire(h, w.server, now)).(clock := now)
    case Release(h, verified, started, now) =>
      var c := ClientOf(w, h);
      if c.waiting.Some? || !verified || c.uid.None? then w
      else Post(w, h, c.(critical := false), PlanRelease(h, c.uid, verified, started, w.server, now)).(clock := now)
    case Arrive(m, heard) =>
      if m !in w.network then w
      else
        var w2 := if Fits(w.server, m) then Commit(w, m) else w;
        var answer := if Fits(w.server, m) then w2.server else None;
        if heard then With(w2, m.client, Answer(ClientOf(w, m.client), m, answer)) else w2
    case GiveUp(h) => With(w, h, ClientOf(w, h).(waiting := None))
    case Delete => w.(server := None)
  }

  function Commit(w: World, m: Write): World {
    w.(server := Some(Stored(m, w.next)), next := w.next + 1, log := w.log + [Stored(m, w.next)])
  }

  function Run(w: World, es: seq<Event>): World
    decreases |es|
  {
    if es == [] then w else Run(Step(w, es[0]), es[1..])
  }

  /** No client has acted yet; the lease may exist already. */
  predicate Initial(w: World) {
    && w.clients == map[] && w.network == {} && w.log == []
    && (w.server.Some? ==> w.server.value.uid < w.next && w.server.value.version < w.next)
  }

  // ---- what every reachable world satisfies ----

  function BaseOf(m: Write): Option<Lease> { if m.Take? then m.base else Some(m.target) }

  /** A read copy is older than what comes next, and is the server's object while it has its version. */
  predicate Coherent(w: World, b: Lease) {
    && b.version < w.next && b.uid < w.next
    && (w.server.Some? && w.server.value.version == b.version ==> w.server.value == b)
  }

  predicate WriteOk(w: World, m: Write) {
    && (BaseOf(m).Some? ==> BaseOf(m).value.scoped && Coherent(w, BaseOf(m).value))
    && (m.Take? && m.base.Some? ==> m.base.value.holder.None? && !Later(m.base.value.notBefore, m.at))
    && (m.Free? ==> m.target.holder == Some(m.client))
  }

  /** While a client is inside, its lease names it, and no release of its own can still take effect. */
  predicate InsideOk(w: World, h: Holder) {
    var c := ClientOf(w, h);
    c.critical ==>
      && c.uid.Some? && c.uid.value < w.next
      && (w.server.Some? && w.server.value.uid == c.uid.value ==>
            && w.server.value.holder == Some(h)
            && forall m :: m in w.network && m.Free? && m.client == h ==> m.target.version != w.server.value.version)
  }

  predicate ServerOk(w: World) { w.server.Some? ==> w.server.value.uid < w.next && w.server.value.version < w.next }

  predicate WritesOk(w: World) { forall m {:trigger WriteOk(w, m)} :: m in w.network ==> WriteOk(w, m) }

  ghost predicate ClientsOk(w: World) { forall h {:trigger InsideOk(w, h)} :: InsideOk(w, h) }

  predicate WaitingOk(w: World) {
    forall h :: h in w.clients && w.clients[h].waiting.Some? ==>
      w.clients[h].waiting.value in w.network && w.clients[h].waiting.value.client == h
  }

  /** No two clients are inside the same lease. */
  predicate Exclusive(clients: map<Holder, Client>) {
    forall h, k :: h in clients && k in clients ==>
      clients[h].critical && clients[k].critical && clients[h].uid == clients[k].uid ==> h == k
  }

  ghost predicate Inv(w: World) {
    ServerOk(w) && WritesOk(w) && ClientsOk(w) && WaitingOk(w) && Exclusive(w.clients)
  }

  lemma InitialInv(w: World)
    requires Initial(w)
    ensures Inv(w)
  {
  }

  /** A write changes nothing its author is not party to: it fits only the very object it was based on. */
  lemma FittingWriteKnowsTheServer(w: World, m: Write)
    requires WritesOk(w) && m in w.network && Fits(w.server, m)
    ensures w.server == BaseOf(m)
  {
    assert WriteOk(w, m);
  }

  lemma PostKeepsInv(w: World, h: Holder, c: Client, plan: Result<Write, Error>)
    requires Inv(w)
    requires c.uid == ClientOf(w, h).uid && (c.critical ==> ClientOf(w, h).critical) && c.waiting.None?
    requires plan.Success? ==> plan.value.client == h && BaseOf(plan.value) == w.server && WriteOk(w, plan.value)
    requires plan.Success? && plan.value.Free? ==> !c.critical
    ensures Inv(Post(w, h, c, plan))
  {
    var w2 := Post(w, h, c, plan);
    forall m | m in w2.network ensures WriteOk(w2, m) {
      if m in w.network { assert WriteOk(w, m); }
    }
    forall k ensures InsideOk(w2, k) {
      assert InsideOk(w, k);
    }
  }

  lemma CommitKeepsWrites(w: World, m: Write)
    requires ServerOk(w) && WritesOk(w) && m in w.network
    ensures ServerOk(Commit(w, m)) && WritesOk(Commit(w, m))
  {
    var w2 := Commit(w, m);
    assert WriteOk(w, m);
    forall n | n in w2.network ensures WriteOk(w2, n) {
      assert WriteOk(w, n);
    }
  }

  /** No client that is inside loses its lease to this write. */
  lemma CommitSparesInside(w: World, m: Write, h: Holder)
    requires Inv(w) && m in w.network && Fits(w.server, m)
    ensures InsideOk(Commit(w, m), h)
    ensures ClientOf(w, h).critical ==> ClientOf(w, h).uid != Some(Stored(m, w.next).uid)
  {
    FittingWriteKnowsTheServer(w, m);
    assert WriteOk(w, m) && InsideOk(w, h);
  }

  lemma CommitKeepsInv(w: World, m: Write)
    requires Inv(w) && m in w.network && Fits(w.server, m)
    ensures Inv(Commit(w, m))
  {
    CommitKeepsWrites(w, m);
    forall h ensures InsideOk(Commit(w, m), h) {
      CommitSparesInside(w, m, h);
    }
  }

  /** The answer to a committed take lets its client in; nobody else is inside that lease. */
  lemma EnterKeepsInv(w: World, m: Write)
    requires Inv(w) && m in w.network && Fits(w.server, m) && m.Take?
    requires ClientOf(w, m.client).waiting == Some(m)
    ensures Inv(With(Commit(w, m), m.client, Client(Some(Stored(m, w.next).uid), true, None)))
  {
    var w1 := Commit(w, m);
    var w2 := With(w1, m.client, Client(Some(Stored(m, w.next).uid), true, None));
    CommitKeepsInv(w, m);
    assert WriteOk(w, m);
    forall n | n in w2.network ensures WriteOk(w2, n) {
      assert WriteOk(w1, n);
    }
    forall h ensures InsideOk(w2, h) {
      assert InsideOk(w1, h);
      forall n | n in w2.network && n.Free? ensures n.target.version != w.next { assert WriteOk(w, n); }
    }
    forall h | h in w2.clients && h != m.client && w2.clients[h].critical
      ensures w2.clients[h].uid != Some(Stored(m, w.next).uid) {
      CommitSparesInside(w, m, h);
    }
  }

  /** Any other answer leaves the client outside, or as it was. */
  lemma SettleKeepsInv(w: World, h: Holder, c: Client)
    requires Inv(w) && c.waiting.None? && (c.critical ==> ClientOf(w, h).critical && c.uid == ClientOf(w, h).uid)
    ensures Inv(With(w, h, c))
  {
    var w2 := With(w, h, c);
    forall m | m in w2.network ensures WriteOk(w2, m) {
      assert WriteOk(w, m);
    }
    forall k ensures InsideOk(w2, k) {
      assert InsideOk(w, k);
    }
  }

  lemma ArriveKeepsInv(w: World, m: Write, heard: bool)
    requires Inv(w)
    ensures Inv(Step(w, Arrive(m, heard)))
  {
    if m in w.network {
      if Fits(w.server, m) {
        CommitKeepsInv(w, m);
        if heard && ClientOf(w, m.client).waiting == Some(m) {
          assert WriteOk(w, m);
          if m.Take? {
            EnterKeepsInv(w, m);
          } else {
            assert InsideOk(w, m.client);
            SettleKeepsInv(Commit(w, m), m.client, Answer(ClientOf(w, m.client), m, Commit(w, m).server));
          }
        } else if heard {
          RestateKeepsInv(Commit(w, m), m.client);
        }
      } else if heard {
        if ClientOf(w, m.client).waiting == Some(m) {
          SettleKeepsInv(w, m.client, ClientOf(w, m.client).(waiting := None));
        } else {
          RestateKeepsInv(w, m.client);
        }
      }
    }
  }

  /** Writing down a client as it was. */
  lemma RestateKeepsInv(w: World, h: Holder)
    requires Inv(w)
    ensures Inv(With(w, h, ClientOf(w, h)))
  {
    var w2 := With(w, h, ClientOf(w, h));
    forall m | m in w2.network ensures WriteOk(w2, m) {
      assert WriteOk(w, m);
    }
    forall k ensures InsideOk(w2, k) {
      assert InsideOk(w, k);
    }
  }

  /** The clock of the world is history only. */
  lemma TickKeepsInv(w: World, now: real)
    requires Inv(w)
    ensures Inv(w.(clock := now))
  {
    var w2 := w.(clock := now);
    forall m | m in w2.network ensures WriteOk(w2, m) {
      assert WriteOk(w, m);
    }
    forall k ensures InsideOk(w2, k) {
      assert InsideOk(w, k);
    }
  }

  lemma DeleteKeepsInv(w: World)
    requires Inv(w)
    ensures Inv(w.(server := None))
  {
    var w2 := w.(server := None);
    forall m | m in w2.network ensures WriteOk(w2, m) {
      assert WriteOk(w, m);
    }
    forall k ensures InsideOk(w2, k) {
      assert InsideOk(w, k);
    }
  }

  lemma StepKeepsInv(w: World, e: Event)
    requires Inv(w)
    ensures Inv(Step(w, e))
  {
    match e
    case Acquire(h, now) =>
      var c := ClientOf(w, h);
      if c.waiting.None? {
        PostKeepsInv(w, h, c, PlanAcquire(h, w.server, now));
        TickKeepsInv(Post(w, h, c, PlanAcquire(h, w.server, now)), now);
      }
    case Release(h, verified, started, now) =>
      var c := ClientOf(w, h);
      if c.waiting.None? && verified && c.uid.Some? {
        var plan := PlanRelease(h, c.uid, verified, started, w.server, now);
        PostKeepsInv(w, h, c.(critical := false), plan);
        TickKeepsInv(Post(w, h, c.(critical := false), plan), now);
      }
    case Arrive(m, heard) => ArriveKeepsInv(w, m, heard);
    case GiveUp(h) => SettleKeepsInv(w, h, ClientOf(w, h).(waiting := None));
    case Delete => DeleteKeepsInv(w);
  }

  lemma {:induction false} RunKeepsInv(w: World, es: seq<Event>)
    requires Inv(w)
    ensures Inv(Run(w, es))
    decreases |es|
  {
    if es != [] {
      StepKeepsInv(w, es[0]);
      RunKeepsInv(Step(w, es[0]), es[1..]);
    }
  }

  // ---- mutual exclusion ----

  predicate Inside(w: World, h: Holder) { h in w.clients && w.clients[h].critical }

  /** Two clients are never inside the same lease, whatever is lost, repeated or deleted. */
  lemma OneClientPerLease(w: World, es: seq<Event>, h: Holder, k: Holder)
    requires Initial(w)
    ensures var v := Run(w, es);
            Inside(v, h) && Inside(v, k) && v.clients[h].uid == v.clients[k].uid ==> h == k
  {
    InitialInv(w);
    RunKeepsInv(w, es);
  }

  /** While nobody deletes the lease, whoever is inside is inside the one on the server. */
  predicate OneLease(w: World) {
    forall h :: h in w.clients && w.clients[h].critical ==>
      w.server.Some? && w.clients[h].uid == Some(w.server.value.uid)
  }

  lemma StepKeepsOneLease(w: World, e: Event)
    requires Inv(w) && OneLease(w) && !e.Delete?
    ensures OneLease(Step(w, e))
  {
    if e.Arrive? && e.m in w.network && Fits(w.server, e.m) {
      FittingWriteKnowsTheServer(w, e.m);
      assert WriteOk(w, e.m) && InsideOk(w, e.m.client);
    }
  }

  lemma {:induction false} RunKeepsOneLease(w: World, es: seq<Event>)
    requires Inv(w) && OneLease(w) && Delete !in es
    ensures OneLease(Run(w, es))
    decreases |es|
  {
    if es != [] {
      StepKeepsInv(w, es[0]);
      StepKeepsOneLease(w, es[0]);
      RunKeepsOneLease(Step(w, es[0]), es[1..]);
    }
  }

  /** At most one client is between acquire returning and release being called. */
  lemma MutualExclusion(w: World, es: seq<Event>, h: Holder, k: Holder)
    requires Initial(w) && Delete !in es
    ensures Inside(Run(w, es), h) && Inside(Run(w, es), k) ==> h == k
    ensures Inside(Run(w, es), h) ==> Run(w, es).server.Some? && Run(w, es).server.value.holder == Some(h)
  {
    InitialInv(w);
    RunKeepsInv(w, es);
    RunKeepsOneLease(w, es);
    assert InsideOk(Run(w, es), h);
  }

  // ---- nothing steals the lock ----

  /** `h` holds the lease but cannot release it: it does not remember this lease, and no release is under way. */
  predicate Stuck(w: World, h: Holder) {
    && w.server.Some? && w.server.value.holder == Some(h)
    && ClientOf(w, h).uid != Some(w.server.value.uid)
    && Mute(w, h)
  }

  predicate Mute(w: World, h: Holder) {
    w.server.Some? ==>
      forall m :: m in w.network && m.Free? && m.client == h ==> m.target.version != w.server.value.version
  }

  /** `h` holds the lease, and whatever it once remembered, it will not call release again. */
  predicate Abandoned(w: World, h: Holder) {
    w.server.Some? && w.server.value.holder == Some(h) && Mute(w, h)
  }

  lemma HeldLeaseRefusesWrites(w: World, h: Holder, m: Write)
    requires Inv(w) && Abandoned(w, h) && m in w.network
    ensures !Fits(w.server, m)
  {
    assert WriteOk(w, m);
    if Fits(w.server, m) { FittingWriteKnowsTheServer(w, m); }
  }

  lemma AbandonedStays(w: World, e: Event, h: Holder)
    requires Inv(w) && Abandoned(w, h) && !e.Delete?
    requires !(e.Release? && e.h == h && ClientOf(w, h).uid == Some(w.server.value.uid))
    ensures Abandoned(Step(w, e), h) && Step(w, e).server == w.server
    ensures ClientOf(Step(w, e), h).uid == ClientOf(w, h).uid || ClientOf(Step(w, e), h).uid == None
  {
    if e.Arrive? && e.m in w.network { HeldLeaseRefusesWrites(w, h, e.m); }
  }

  predicate NeverReleases(es: seq<Event>, h: Holder) { forall e :: e in es && e.Release? ==> e.h != h }

  /** A dead holder blocks every later acquire for ever: no run of the others changes the lease at all. */
  lemma {:induction false} DeadHolderBlocksForever(w: World, es: seq<Event>, h: Holder)
    requires Inv(w) && Abandoned(w, h) && Delete !in es && NeverReleases(es, h)
    ensures Run(w, es).server == w.server && Abandoned(Run(w, es), h)
    ensures forall k, now :: PlanAcquire(k, Run(w, es).server, now).Failure?
    decreases |es|
  {
    if es != [] {
      AbandonedStays(w, es[0], h);
      StepKeepsInv(w, es[0]);
      DeadHolderBlocksForever(Step(w, es[0]), es[1..], h);
    }
  }

  /** So does a holder that never heard its acquire succeed, whatever it goes on to call. */
  lemma {:induction false} LostAnswerBlocksForever(w: World, es: seq<Event>, h: Holder)
    requires Inv(w) && Stuck(w, h) && Delete !in es
    ensures Run(w, es).server == w.server && Stuck(Run(w, es), h)
    ensures forall k, now :: PlanAcquire(k, Run(w, es).server, now).Failure?
    decreases |es|
  {
    if es != [] {
      AbandonedStays(w, es[0], h);
      StepKeepsInv(w, es[0]);
      LostAnswerBlocksForever(Step(w, es[0]), es[1..], h);
    }
  }

  /** The answer to a take is what makes the difference: unheard, its client is stuck if it was new. */
  lemma UnheardTakeIsStuck(w: World, m: Write)
    requires Inv(w) && m in w.network && Fits(w.server, m) && m.Take?
    ensures var v := Step(w, Arrive(m, false)); Abandoned(v, m.client) && ClientOf(v, m.client) == ClientOf(w, m.client)
    ensures ClientOf(w, m.client).uid.None? ==> Stuck(Step(w, Arrive(m, false)), m.client)
  {
    assert WriteOk(w, m);
    forall n | n in w.network && n.Free? ensures n.target.version != w.next { assert WriteOk(w, n); }
  }

  /** A holder that remembers its lease can always give it back, and nobody else can. */
  lemma HolderCanRelease(w: World, h: Holder, started: bool, now: real)
    requires Inv(w) && w.server.Some? && w.server.value.holder == Some(h) && w.server.value.scoped
    requires ClientOf(w, h).waiting.None?
    ensures PlanRelease(h, ClientOf(w, h).uid, true, started, w.server, now).Success?
            <==> ClientOf(w, h).uid == Some(w.server.value.uid)
    ensures ClientOf(w, h).uid == Some(w.server.value.uid) ==>
              var v := Step(w, Release(h, true, started, now));
              && ClientOf(v, h).waiting.Some?
              && Step(v, Arrive(ClientOf(v, h).waiting.value, true)).server.Some?
              && Step(v, Arrive(ClientOf(v, h).waiting.value, true)).server.value.holder == None
  {
  }

  // ---- the cooldown carried inside the lease ----

  /** `b` was not taken before `a` allowed it. */
  predicate Waited(a: Lease, b: Lease) {
    b.holder.Some? ==> b.acquired.Some? && !Later(a.notBefore, b.acquired.value)
  }

  predicate NotEarlier(a: Option<real>, b: Option<real>) { a.None? || (b.Some? && a.value <= b.value) }

  /** Stored objects of one lease follow each other in the log, and the server holds the last of them. */
  predicate LogOk(log: seq<Lease>, server: Option<Lease>, next: nat) {
    && (forall i :: 0 <= i < |log| ==> log[i].uid < next && (server.Some? ==> log[i].uid <= server.value.uid))
    && (forall i, j :: 0 <= i < j < |log| ==> log[i].uid <= log[j].uid)
    && (server.Some? && log != [] && log[|log| - 1].uid == server.value.uid ==> log[|log| - 1] == server.value)
  }

  predicate NextWaits(log: seq<Lease>) {
    forall i :: 0 < i < |log| && log[i - 1].uid == log[i].uid ==> Waited(log[i - 1], log[i])
  }

  lemma CommitKeepsLog(w: World, m: Write)
    requires Inv(w) && m in w.network && Fits(w.server, m) && LogOk(w.log, w.server, w.next)
    ensures LogOk(Commit(w, m).log, Commit(w, m).server, Commit(w, m).next)
  {
    FittingWriteKnowsTheServer(w, m);
    assert WriteOk(w, m);
  }

  lemma CommitKeepsNext(w: World, m: Write)
    requires Inv(w) && m in w.network && Fits(w.server, m) && LogOk(w.log, w.server, w.next) && NextWaits(w.log)
    ensures NextWaits(Commit(w, m).log)
  {
    FittingWriteKnowsTheServer(w, m);
    assert WriteOk(w, m);
    var log := Commit(w, m).log;
    assert forall i :: 0 <= i < |w.log| ==> log[i] == w.log[i];
  }

  lemma StepKeepsLog(w: World, e: Event)
    requires Inv(w) && LogOk(w.log, w.server, w.next) && NextWaits(w.log)
    ensures LogOk(Step(w, e).log, Step(w, e).server, Step(w, e).next) && NextWaits(Step(w, e).log)
  {
    if e.Arrive? && e.m in w.network && Fits(w.server, e.m) {
      CommitKeepsLog(w, e.m);
      CommitKeepsNext(w, e.m);
    }
  }

  lemma {:induction false} RunKeepsLog(w: World, es: seq<Event>)
    requires Inv(w) && LogOk(w.log, w.server, w.next) && NextWaits(w.log)
    ensures LogOk(Run(w, es).log, Run(w, es).server, Run(w, es).next) && NextWaits(Run(w, es).log)
    decreases |es|
  {
    if es != [] {
      StepKeepsInv(w, es[0]);
      StepKeepsLog(w, es[0]);
      RunKeepsLog(Step(w, es[0]), es[1..]);
    }
  }

  /**
   With any clocks at all: the next object stored for a lease after one that says "not before" was
   not taken earlier, because the version the taker checked is the version it replaced.
   */
  lemma NextAcquireWaits(w: World, es: seq<Event>, i: nat, j: nat)
    requires Initial(w) && i < j < |Run(w, es).log| && Run(w, es).log[i].uid == Run(w, es).log[j].uid
    ensures Run(w, es).log[i + 1].uid == Run(w, es).log[i].uid && Waited(Run(w, es).log[i], Run(w, es).log[i + 1])
  {
    InitialInv(w);
    RunKeepsLog(w, es);
    var log := Run(w, es).log;
    assert log[i].uid <= log[i + 1].uid <= log[j].uid;
    assert log[i + 1 - 1] == log[i];
  }

  // With readings that never go back, the same holds of every later acquire, not only the next.

  predicate Reads(e: Event) { e.Acquire? || e.Release? }

  predicate Forward(w: World, es: seq<Event>)
    decreases |es|
  {
    es == [] || ((Reads(es[0]) ==> w.clock <= es[0].now) && Forward(Step(w, es[0]), es[1..]))
  }

  predicate WriteTimeOk(m: Write, clock: real) {
    (m.Take? ==> m.at <= clock) && (m.Free? ==> !Later(m.target.notBefore, m.notBefore))
  }

  predicate HolderTimeOk(server: Option<Lease>, clock: real) {
    server.Some? && server.value.holder.Some? ==>
      && server.value.acquired.Some? && server.value.acquired.value <= clock
      && !Later(server.value.notBefore, server.value.acquired.value)
  }

  predicate ServerIsLatest(log: seq<Lease>, server: Option<Lease>) {
    server.Some? ==> forall i :: 0 <= i < |log| && log[i].uid == server.value.uid ==>
      NotEarlier(log[i].notBefore, server.value.notBefore)
  }

  predicate AllWait(log: seq<Lease>) {
    forall i, j :: 0 <= i < j < |log| && log[i].uid == log[j].uid ==>
      NotEarlier(log[i].notBefore, log[j].notBefore) && Waited(log[i], log[j])
  }

  predicate TimeOk(w: World) {
    && (forall m :: m in w.network ==> WriteTimeOk(m, w.clock))
    && HolderTimeOk(w.server, w.clock) && ServerIsLatest(w.log, w.server) && AllWait(w.log)
  }

  /** What a write stores is not before anything its base said, and a take waited for it. */
  lemma StoredInTime(w: World, m: Write, clock: real)
    requires Inv(w) && m in w.network && Fits(w.server, m) && WriteTimeOk(m, clock) && w.server.Some?
    ensures Stored(m, w.next).uid == w.server.value.uid
    ensures NotEarlier(w.server.value.notBefore, Stored(m, w.next).notBefore)
            && Waited(w.server.value, Stored(m, w.next))
    ensures HolderTimeOk(Some(Stored(m, w.next)), clock)
  {
    FittingWriteKnowsTheServer(w, m);
    assert WriteOk(w, m);
  }

  lemma CommitKeepsTime(w: World, m: Write)
    requires Inv(w) && TimeOk(w) && m in w.network && Fits(w.server, m) && LogOk(w.log, w.server, w.next)
    ensures TimeOk(Commit(w, m))
  {
    var v := Commit(w, m);
    var n := |w.log|;
    if w.server.Some? { StoredInTime(w, m, w.clock); }
    forall i | 0 <= i < n && v.log[i].uid == v.log[n].uid
      ensures NotEarlier(v.log[i].notBefore, v.log[n].notBefore) && Waited(v.log[i], v.log[n]) {
      assert v.log[i] == w.log[i];
    }
    forall i, j | 0 <= i < j < |v.log| && v.log[i].uid == v.log[j].uid
      ensures NotEarlier(v.log[i].notBefore, v.log[j].notBefore) && Waited(v.log[i], v.log[j]) {
      if j < n { assert v.log[i] == w.log[i] && v.log[j] == w.log[j]; }
    }
  }

  lemma StepKeepsTime(w: World, e: Event)
    requires Inv(w) && TimeOk(w) && LogOk(w.log, w.server, w.next) && (Reads(e) ==> w.clock <= e.now)
    ensures TimeOk(Step(w, e))
  {
    if e.Arrive? && e.m in w.network && Fits(w.server, e.m) { CommitKeepsTime(w, e.m); }
  }

  lemma {:induction false} RunKeepsTime(w: World, es: seq<Event>)
    requires Inv(w) && TimeOk(w) && LogOk(w.log, w.server, w.next) && NextWaits(w.log) && Forward(w, es)
    ensures TimeOk(Run(w, es))
    decreases |es|
  {
    if es != [] {
      StepKeepsInv(w, es[0]);
      StepKeepsTime(w, es[0]);
      StepKeepsLog(w, es[0]);
      RunKeepsTime(Step(w, es[0]), es[1..]);
    }
  }

  /** Every later acquire of a lease waited for everything it was ever told, and `not before` never goes back. */
  lemma EveryLaterAcquireWaits(w: World, es: seq<Event>, i: nat, j: nat)
    requires Initial(w) && HolderTimeOk(w.server, w.clock) && Forward(w, es)
    requires i < j < |Run(w, es).log| && Run(w, es).log[i].uid == Run(w, es).log[j].uid
    ensures NotEarlier(Run(w, es).log[i].notBefore, Run(w, es).log[j].notBefore)
    ensures Waited(Run(w, es).log[i], Run(w, es).log[j])
  {
    InitialInv(w);
    RunKeepsTime(w, es);
  }

  /** A release after a started scenario, at reading `now`, is the object that says not before 305 seconds later. */
  lemma ReleaseStoresCooldown(w: World, h: Holder, now: real)
    requires Inv(w) && w.server.Some? && w.server.value.scoped && w.server.value.holder == Some(h)
    requires ClientOf(w, h) == Client(Some(w.server.value.uid), true, None)
    ensures var v := Step(w, Release(h, true, true, now));
            && ClientOf(v, h).waiting.Some? && !ClientOf(v, h).critical
            && var u := Step(v, Arrive(ClientOf(v, h).waiting.value, true));
               && |u.log| == |w.log| + 1 && u.log[|w.log|].notBefore == Some(now + COOLDOWN)
               && u.log[|w.log|].holder == None && ClientOf(u, h) == Client(None, false, None)
  {
  }

  // ---- from a release to every later acquire ----

  lemma {:induction false} RunJoined(w: World, a: seq<Event>, b: seq<Event>)
    ensures Run(w, a + b) == Run(Run(w, a), b)
    decreases |a|
  {
    if a == [] {
      assert a + b == b;
    } else {
      assert (a + b)[1..] == a[1..] + b;
      RunJoined(Step(w, a[0]), a[1..], b);
    }
  }

  predicate HasLease(w: World, uid: nat) { w.server.Some? && w.server.value.uid == uid }

  lemma StepKeepsLease(w: World, e: Event, uid: nat)
    requires Inv(w) && HasLease(w, uid) && !e.Delete?
    ensures HasLease(Step(w, e), uid) && |w.log| <= |Step(w, e).log|
    ensures forall j :: |w.log| <= j < |Step(w, e).log| ==> Step(w, e).log[j].uid == uid
    ensures forall j :: 0 <= j < |w.log| ==> Step(w, e).log[j] == w.log[j]
  {
    if e.Arrive? && e.m in w.network && Fits(w.server, e.m) { FittingWriteKnowsTheServer(w, e.m); }
  }

  /** While nobody deletes the lease, whatever is stored is stored for it. */
  lemma {:induction false} RunKeepsLease(w: World, es: seq<Event>, uid: nat)
    requires Inv(w) && HasLease(w, uid) && Delete !in es
    ensures HasLease(Run(w, es), uid) && |w.log| <= |Run(w, es).log|
    ensures forall j :: |w.log| <= j < |Run(w, es).log| ==> Run(w, es).log[j].uid == uid
    ensures forall j :: 0 <= j < |w.log| ==> Run(w, es).log[j] == w.log[j]
    decreases |es|
  {
    if es != [] {
      StepKeepsInv(w, es[0]);
      StepKeepsLease(w, es[0], uid);
      RunKeepsLease(Step(w, es[0]), es[1..], uid);
    }
  }

  /** What `h` plans when it calls release after a started scenario. */
  function StartedRelease(w: World, h: Holder, now: real): Result<Write, Error> {
    PlanRelease(h, ClientOf(w, h).uid, true, true, w.server, now)
  }

  /**
   Once the release of a started scenario, read at `now`, is stored, however late its write arrives and
   whoever acts in between: every acquire stored after it was read at `now` plus 305 seconds or later.
   */
  lemma StartedReleaseHoldsOff(w: World, before: seq<Event>, h: Holder, now: real, after: seq<Event>, i: nat, j: nat)
    requires Initial(w) && HolderTimeOk(w.server, w.clock) && Delete !in after
    requires Forward(w, before + ([Release(h, true, true, now)] + after))
    requires ClientOf(Run(w, before), h).waiting.None? && StartedRelease(Run(w, before), h, now).Success?
    requires var log := Run(w, before + ([Release(h, true, true, now)] + after)).log;
             && |Run(w, before).log| <= i < j < |log|
             && log[i] == Stored(StartedRelease(Run(w, before), h, now).value, log[i].version) && log[j].holder.Some?
    ensures var log := Run(w, before + ([Release(h, true, true, now)] + after)).log;
            log[j].acquired.Some? && log[j].acquired.value >= now + COOLDOWN
  {
    var v := Run(w, before);
    var e := Release(h, true, true, now);
    var m := StartedRelease(v, h, now).value;
    RunJoined(w, before, [e] + after);
    assert ([e] + after)[1..] == after;
    InitialInv(w);
    RunKeepsInv(w, before);
    StepKeepsInv(v, e);
    assert HasLease(Step(v, e), m.target.uid) && Step(v, e).log == v.log;
    RunKeepsLease(Step(v, e), after, m.target.uid);
    EveryLaterAcquireWaits(w, before + ([e] + after), i, j);
  }
}
