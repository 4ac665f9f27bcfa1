/**
 Every run of the comparison store, with crashes between any two file writes and sends counted as they
 happen.  `slots` and `sent` are history: reservations that were written, and requests that went out.
 */
module ModelComparisonLaws {
  import opened Wrappers
  import opened ModelComparison

  datatype Slot = Slot(id: nat, mode: Mode, day: int)

  datatype Stage = Taken | Marked | Gone
  datatype Running = Running(slot: Slot, stage: Stage)

  /** Who approved what, when, and with which acknowledgements. */
  datatype Grant = Grant(id: nat, bound: Bound, actor: string, retention: bool, sharingOff: bool, at: int)

  /** `purged` is history too: the latest day on which a ledger was cut; `grants` are the approvals given. */
  datatype World = World(files: Files, clock: int, running: Option<Running>, slots: seq<Slot>, sent: seq<Slot>,
                         purged: Option<int>, grants: seq<Grant>)

  datatype Event =
    | Prepare(id: nat, b: Bound, rules: string, evidence: bool, now: int)
    | Approve(code: Code, id: nat, hash: Bound, actor: string, retention: bool, sharingOff: bool, now: int)
    | Run(code: Code, id: nat, transport: Option<Transport>, now: int)
    | MarkSending | Send | Close(state: State, reason: string) | Crash
    | PurgeOne(id: nat, now: int)
    | PurgeDays(mode: Mode, now: int)

  predicate Inside(e: Event) { e.MarkSending? || e.Send? || e.Close? || e.Crash? }

  /** A process that is running goes on or stops; any other operation waits for the lock. */
  predicate Possible(w: World, e: Event) {
    && (Inside(e) <==> w.running.Some?)
    && (e.MarkSending? ==> w.running.value.stage.Taken?)
    && (e.Send? ==> w.running.value.stage.Marked?)
    && (e.Close? ==> !w.running.value.stage.Taken? && Closing(e.state))
  }

  predicate Timely(w: World, e: Event) { Inside(e) || w.clock <= e.now }

  /** No run is read more than `gap` days before the day of an earlier purge. */
  predicate InTime(w: World, e: Event, gap: int) {
    e.Run? && w.purged.Some? ==> w.purged.value - Day(e.now) <= gap
  }

  function Latest(purged: Option<int>, day: int): Option<int> {
    if purged.Some? && purged.value >= day then purged else Some(day)
  }

  function Kept(f: Files, r: Result<Files, Error>): Files { if r.Success? then r.value else f }

  function Step(w: World, e: Event): World
    requires Possible(w, e) && Sound(w)
  {
    match e
    case Prepare(id, b, rules, evidence, now) =>
      w.(files := Kept(w.files, ModelComparison.Prepare(w.files, id, b, rules, evidence, now)), clock := now)
    case Approve(code, id, hash, actor, retention, off, now) =>
      var r := ModelComparison.Approve(w.files, code, id, hash, actor, retention, off, now);
      w.(files := Kept(w.files, r), clock := now,
         grants := if r.Success? then w.grants + [Grant(id, hash, actor, retention, off, now)] else w.grants)
    case Run(code, id, transport, now) =>
      (match Begin(w.files, code, id, transport, now)
       case Interrupted(f) => w.(files := f, clock := now)
       case Reserved(f) =>
         var slot := Slot(id, w.files.records[id].bound.plan.mode, Day(now));
         w.(files := f, clock := now, running := Some(Running(slot, Taken)), slots := w.slots + [slot])
       case _ => w.(clock := now))
    case MarkSending =>
      w.(files := Mark(w.files, w.running.value.slot.id), running := Some(w.running.value.(stage := Marked)))
    case Send => w.(running := Some(w.running.value.(stage := Gone)), sent := w.sent + [w.running.value.slot])
    case Close(state, reason) =>
      w.(files := ModelComparison.Close(w.files, w.running.value.slot.id, state, reason), running := None)
    case Crash => w.(running := None)
    case PurgeOne(id, now) => w.(files := PurgeRecord(w.files, id, now), clock := now)
    case PurgeDays(mode, now) =>
      var r := PurgeLedger(w.files, mode, now);
      w.(files := Kept(w.files, r), clock := now, purged := if r.Success? then Latest(w.purged, Day(now)) else w.purged)
  }

  // ---- at most one send, under any clock ----

  /** No way back to a state that can be sent. */
  predicate Spent(r: Record) { r.Tombstone? || r.state.Sending? || r.state.Failed? || r.state.NeedsReview? }

  /** The running process holds a record in the state its stage says. */
  predicate Sound(w: World) {
    w.running.Some? ==>
      var r := w.running.value;
      && r.slot.id in w.files.records && w.files.records[r.slot.id].Record?
      && (if r.stage.Taken? then w.files.records[r.slot.id].state.Approved?
          else w.files.records[r.slot.id].state.Sending?)
  }

  predicate SentOk(w: World) {
    && (forall s :: s in w.sent ==> s.id in w.files.records && Spent(w.files.records[s.id]))
    && (w.running.Some? && !w.running.value.stage.Gone? ==> forall s :: s in w.sent ==> s.id != w.running.value.slot.id)
    && (forall i, j :: 0 <= i < j < |w.sent| ==> w.sent[i].id != w.sent[j].id)
  }

  /** Records stay, and spent ones stay spent. */
  predicate SpentStays(f: Files, g: Files) {
    forall id :: id in f.records ==> id in g.records && (Spent(f.records[id]) ==> Spent(g.records[id]))
  }

  lemma StepSpends(w: World, e: Event)
    requires Sound(w) && Possible(w, e)
    ensures SpentStays(w.files, Step(w, e).files)
  {
  }

  lemma StepIsSound(w: World, e: Event)
    requires Sound(w) && Possible(w, e)
    ensures Sound(Step(w, e))
  {
  }

  /** Only a record that was never spent starts a send. */
  lemma RunStartsUnspent(w: World, e: Event)
    requires Sound(w) && Possible(w, e) && e.Run? && Step(w, e).running.Some?
    ensures e.id in w.files.records && !Spent(w.files.records[e.id])
    ensures Step(w, e).running.value.slot.id == e.id && Step(w, e).sent == w.sent
  {
  }

  lemma StepKeepsSent(w: World, e: Event)
    requires Sound(w) && SentOk(w) && Possible(w, e)
    ensures SentOk(Step(w, e))
  {
    StepSpends(w, e);
    if e.Run? && Step(w, e).running.Some? { RunStartsUnspent(w, e); }
  }

  function Play(w: World, es: seq<Event>): (v: World)
    requires Sound(w) && AllPossible(w, es)
    ensures Sound(v)
    decreases |es|
  {
    if es == [] then w
    else
      StepIsSound(w, es[0]);
      Play(Step(w, es[0]), es[1..])
  }

  predicate AllPossible(w: World, es: seq<Event>)
    requires Sound(w)
    decreases |es|
  {
    es == [] || (Possible(w, es[0]) && (StepIsSound(w, es[0]); AllPossible(Step(w, es[0]), es[1..])))
  }

  lemma {:induction false} PlayKeepsSent(w: World, es: seq<Event>)
    requires Sound(w) && SentOk(w) && AllPossible(w, es)
    ensures SentOk(Play(w, es))
    decreases |es|
  {
    if es != [] {
      StepIsSound(w, es[0]);
      StepKeepsSent(w, es[0]);
      PlayKeepsSent(Step(w, es[0]), es[1..]);
    }
  }

  const START := World(EMPTY, 0, None, [], [], None, [])

  /** Whatever crashes, expires, is purged and is prepared again: an identifier is sent at most once, with any clock. */
  lemma SentAtMostOnce(es: seq<Event>, i: nat, j: nat)
    requires AllPossible(START, es) && i < j < |Play(START, es).sent|
    ensures Play(START, es).sent[i].id != Play(START, es).sent[j].id
  {
    PlayKeepsSent(START, es);
  }

  /**
   After it was sent, no run of it reserves again: its record is spent or a tombstone, and preparing does not
   revive it.
   */
  lemma SentCannotBeginAgain(es: seq<Event>, s: Slot, code: Code, transport: Option<Transport>, now: int)
    requires AllPossible(START, es) && s in Play(START, es).sent
    ensures !Begin(Play(START, es).files, code, s.id, transport, now).Reserved?
  {
    PlayKeepsSent(START, es);
  }

  // ---- the budget, with no run 90 days or more before an earlier purge ----

  function CountOn(slots: seq<Slot>, mode: Mode, day: int): nat {
    if slots == [] then 0
    else
      var n := |slots| - 1;
      CountOn(slots[..n], mode, day) + if slots[n].mode == mode && slots[n].day == day then 1 else 0
  }

  /** No purge so far can have dropped the day. */
  predicate Retained(purged: Option<int>, d: int) { purged.Some? ==> d > purged.value - LEDGER_DAYS }

  predicate DayOk(f: Files, purged: Option<int>, slots: seq<Slot>, mode: Mode, d: int) {
    var l := LedgerOf(f, mode);
    && CountOn(slots, mode, d) <= 10
    && (l.Some? && d in l.value.days ==> l.value.days[d] == RESERVE_CENTS * CountOn(slots, mode, d))
    && (!(l.Some? && d in l.value.days) && Retained(purged, d) ==> CountOn(slots, mode, d) == 0)
  }

  ghost predicate LedgersOk(f: Files, purged: Option<int>, slots: seq<Slot>) {
    forall mode, d {:trigger DayOk(f, purged, slots, mode, d)} :: DayOk(f, purged, slots, mode, d)
  }

  lemma DayMonotone(a: int, b: int)
    requires a <= b
    ensures Day(a) <= Day(b)
  {
    assert b == a + (b - a);
  }

  /** Steps that leave the ledgers alone. */
  lemma SameLedgers(f: Files, g: Files, purged: Option<int>, slots: seq<Slot>)
    requires LedgersOk(f, purged, slots) && g.mock == f.mock && g.live == f.live
    ensures LedgersOk(g, purged, slots)
  {
    forall mode, d ensures DayOk(g, purged, slots, mode, d) {
      assert DayOk(f, purged, slots, mode, d);
    }
  }

  lemma ReserveKeepsLedgers(f: Files, purged: Option<int>, now: int, slots: seq<Slot>, slot: Slot)
    requires LedgersOk(f, purged, slots) && slot.day == Day(now) && Retained(purged, Day(now))
    requires Reserve(f, slot.mode, now).Success?
    ensures LedgersOk(Reserve(f, slot.mode, now).value, purged, slots + [slot])
  {
    var g := Reserve(f, slot.mode, now).value;
    assert (slots + [slot])[..|slots|] == slots;
    forall mode, d ensures DayOk(g, purged, slots + [slot], mode, d) {
      assert DayOk(f, purged, slots, mode, d);
    }
  }

  lemma PurgeKeepsLedgers(f: Files, purged: Option<int>, now: int, slots: seq<Slot>, mode: Mode)
    requires LedgersOk(f, purged, slots) && PurgeLedger(f, mode, now).Success?
    ensures LedgersOk(PurgeLedger(f, mode, now).value, Latest(purged, Day(now)), slots)
  {
    var g := PurgeLedger(f, mode, now).value;
    forall m, d ensures DayOk(g, Latest(purged, Day(now)), slots, m, d) {
      assert DayOk(f, purged, slots, m, d);
    }
  }

  lemma StepKeepsLedgers(w: World, e: Event, gap: int)
    requires Sound(w) && Possible(w, e) && InTime(w, e, gap) && gap < LEDGER_DAYS
             && LedgersOk(w.files, w.purged, w.slots)
    ensures LedgersOk(Step(w, e).files, Step(w, e).purged, Step(w, e).slots)
  {
    var v := Step(w, e);
    if e.PurgeDays? && PurgeLedger(w.files, e.mode, e.now).Success? {
      PurgeKeepsLedgers(w.files, w.purged, e.now, w.slots, e.mode);
    } else if v.files.mock == w.files.mock && v.files.live == w.files.live && v.slots == w.slots {
      SameLedgers(w.files, v.files, w.purged, w.slots);
    } else {
      RunReserves(w, e);
      ReserveKeepsLedgers(w.files, w.purged, e.now, w.slots, v.running.value.slot);
    }
  }

  /** The only step that adds to a ledger. */
  lemma RunReserves(w: World, e: Event)
    requires Sound(w) && Possible(w, e) && !e.PurgeDays?
    requires var v := Step(w, e); !(v.files.mock == w.files.mock && v.files.live == w.files.live && v.slots == w.slots)
    ensures e.Run? && Step(w, e).running.Some? && Step(w, e).clock == e.now
    ensures var slot := Step(w, e).running.value.slot;
            && slot.day == Day(e.now) && Reserve(w.files, slot.mode, e.now) == Success(Step(w, e).files)
            && Step(w, e).slots == w.slots + [slot]
  {
  }

  /** A reservation not yet sent. */
  function Pending(w: World, mode: Mode, day: int): nat {
    if w.running.Some? && !w.running.value.stage.Gone? && w.running.value.slot.mode == mode
      && w.running.value.slot.day == day
    then 1 else 0
  }

  ghost predicate Covered(w: World) {
    forall mode, d {:trigger CountOn(w.sent, mode, d)} ::
      CountOn(w.sent, mode, d) + Pending(w, mode, d) <= CountOn(w.slots, mode, d)
  }

  lemma CountMore(slots: seq<Slot>, slot: Slot, mode: Mode, day: int)
    ensures CountOn(slots + [slot], mode, day) == CountOn(slots, mode, day) + if slot.mode == mode && slot.day == day
            then 1 else 0
  {
    assert (slots + [slot])[..|slots|] == slots;
  }

  lemma StepKeepsCovered(w: World, e: Event)
    requires Sound(w) && Possible(w, e) && Covered(w)
    ensures Covered(Step(w, e))
  {
    var v := Step(w, e);
    forall mode, d ensures CountOn(v.sent, mode, d) + Pending(v, mode, d) <= CountOn(v.slots, mode, d) {
      assert CountOn(w.sent, mode, d) + Pending(w, mode, d) <= CountOn(w.slots, mode, d);
      if e.Run? && v.running.Some? {
        CountMore(w.slots, v.running.value.slot, mode, d);
      } else if e.Send? {
        CountMore(w.sent, w.running.value.slot, mode, d);
      }
    }
  }

  predicate AllInTime(w: World, es: seq<Event>, gap: int)
    requires Sound(w) && AllPossible(w, es)
    decreases |es|
  {
    es == [] || (InTime(w, es[0], gap) && (StepIsSound(w, es[0]); AllInTime(Step(w, es[0]), es[1..], gap)))
  }

  lemma {:induction false} PlayKeepsCovered(w: World, es: seq<Event>)
    requires Sound(w) && AllPossible(w, es) && Covered(w)
    ensures Covered(Play(w, es))
    decreases |es|
  {
    if es != [] {
      StepIsSound(w, es[0]);
      StepKeepsCovered(w, es[0]);
      PlayKeepsCovered(Step(w, es[0]), es[1..]);
    }
  }

  lemma {:induction false} PlayKeepsLedgers(w: World, es: seq<Event>, gap: int)
    requires Sound(w) && AllPossible(w, es) && AllInTime(w, es, gap) && gap < LEDGER_DAYS
    requires LedgersOk(w.files, w.purged, w.slots)
    ensures LedgersOk(Play(w, es).files, Play(w, es).purged, Play(w, es).slots)
    decreases |es|
  {
    if es != [] {
      StepIsSound(w, es[0]);
      StepKeepsLedgers(w, es[0], gap);
      PlayKeepsLedgers(Step(w, es[0]), es[1..], gap);
    }
  }

  /** A send is always covered by a reservation of its day, wherever a crash falls; this needs no clock. */
  lemma SendsAreReserved(es: seq<Event>, mode: Mode, day: int)
    requires AllPossible(START, es)
    ensures CountOn(Play(START, es).sent, mode, day) <= CountOn(Play(START, es).slots, mode, day)
  {
    forall m, d ensures CountOn(START.sent, m, d) + Pending(START, m, d) <= CountOn(START.slots, m, d) {}
    PlayKeepsCovered(START, es);
    assert CountOn(Play(START, es).sent, mode, day) + Pending(Play(START, es), mode, day)
           <= CountOn(Play(START, es).slots, mode, day);
  }

  /**
   Whatever the clock, if no run is read 90 days or more before an earlier purge, each day no purge dropped
   holds exactly ten cents for every reservation, and no day reserves or sends over a dollar.
   */
  lemma LedgerCoversSends(es: seq<Event>, gap: int, mode: Mode, day: int)
    requires AllPossible(START, es) && AllInTime(START, es, gap) && gap < LEDGER_DAYS
    ensures var w := Play(START, es); var spent := SpentOn(w.files, mode, day);
            && (Retained(w.purged, day) ==> spent == RESERVE_CENTS * CountOn(w.slots, mode, day))
            && RESERVE_CENTS * CountOn(w.sent, mode, day) <= RESERVE_CENTS * CountOn(w.slots, mode, day) <= DAILY_CENTS
            && spent <= DAILY_CENTS
  {
    forall m, d ensures DayOk(START.files, START.purged, START.slots, m, d) {}
    PlayKeepsLedgers(START, es, gap);
    SendsAreReserved(es, mode, day);
    var w := Play(START, es);
    assert DayOk(w.files, w.purged, w.slots, mode, day);
  }

  // ---- clock readings that never go back ----

  predicate AllTimely(w: World, es: seq<Event>)
    requires Sound(w) && AllPossible(w, es)
    decreases |es|
  {
    es == [] || (Timely(w, es[0]) && (StepIsSound(w, es[0]); AllTimely(Step(w, es[0]), es[1..])))
  }

  predicate ClockOk(w: World) {
    && (w.purged.Some? ==> w.purged.value <= Day(w.clock))
    && (w.files.mock.Some? ==> w.files.mock.value.lastAt <= w.clock)
    && (w.files.live.Some? ==> w.files.live.value.lastAt <= w.clock)
  }

  lemma PurgeKeepsClock(w: World, mode: Mode, now: int)
    requires ClockOk(w) && w.running.None? && w.clock <= now
    ensures ClockOk(Step(w, PurgeDays(mode, now)))
  {
    DayMonotone(w.clock, now);
  }

  lemma RunKeepsClock(w: World, e: Event)
    requires ClockOk(w) && Sound(w) && Possible(w, e) && e.Run? && w.clock <= e.now
    ensures ClockOk(Step(w, e)) && InTime(w, e, 0)
  {
    DayMonotone(w.clock, e.now);
  }

  lemma StepKeepsClock(w: World, e: Event)
    requires Sound(w) && ClockOk(w) && Possible(w, e) && Timely(w, e)
    ensures ClockOk(Step(w, e)) && InTime(w, e, 0)
  {
    if e.PurgeDays? {
      PurgeKeepsClock(w, e.mode, e.now);
    } else if e.Run? {
      RunKeepsClock(w, e);
    } else if !Inside(e) {
      DayMonotone(w.clock, e.now);
    }
  }

  /** Such runs are in time for every purge. */
  lemma {:induction false} TimelyIsInTime(w: World, es: seq<Event>)
    requires Sound(w) && ClockOk(w) && AllPossible(w, es) && AllTimely(w, es)
    ensures AllInTime(w, es, 0) && ClockOk(Play(w, es))
    decreases |es|
  {
    if es != [] {
      StepIsSound(w, es[0]);
      StepKeepsClock(w, es[0]);
      TimelyIsInTime(Step(w, es[0]), es[1..]);
    }
  }

  /** And no reading in them is ever refused as a clock that went back, by a reservation or by a purge. */
  lemma ClockIsNeverRefused(es: seq<Event>, mode: Mode, now: int)
    requires AllPossible(START, es) && AllTimely(START, es) && Play(START, es).clock <= now
    ensures AllInTime(START, es, 0)
    ensures Reserve(Play(START, es).files, mode, now) != Failure(ClockMovedBackwards)
    ensures PurgeLedger(Play(START, es).files, mode, now).Success?
  {
    TimelyIsInTime(START, es);
  }
}
