/**
 The bound on purges is exact: if a run may be read 90 days before an earlier purge, eleven requests can go
 out on one day.
 */
module ModelComparisonRuns {
  import opened Wrappers
  import opened ModelComparison
  import opened ModelComparisonLaws

  const TERMS := Plan(Mode.Mock, None, 0)
  const CODE := Code("i", map[("p", TERMS) := "t"], map["p" := "r"])
  const SENDER := Some(Transport(Mode.Mock, None))

  /** Another binding for every identifier. */
  function BoundOf(n: nat): Bound { Bound("p", TERMS, "t", "i", seq(n, i requires 0 <= i < n => 'q')) }

  /** A comparison approved at the start of day 0. */
  function Ready(n: nat): Record {
    Record(BoundOf(n), Approved, "r", 0, LIFE, Some(Approval("a", BoundOf(n), true, true, 0, APPROVAL)), None)
  }

  function SlotOf(n: nat): Slot { Slot(n, Mode.Mock, 0) }

  lemma {:induction false} Joined(w: World, a: seq<Event>, b: seq<Event>, gap: int)
    requires Sound(w) && AllPossible(w, a) && AllInTime(w, a, gap)
    requires AllPossible(Play(w, a), b) && AllInTime(Play(w, a), b, gap)
    ensures AllPossible(w, a + b) && AllInTime(w, a + b, gap) && Play(w, a + b) == Play(Play(w, a), b)
    decreases |a|
  {
    if a == [] {
      assert a + b == b;
    } else {
      StepIsSound(w, a[0]);
      assert (a + b)[1..] == a[1..] + b;
      Joined(Step(w, a[0]), a[1..], b, gap);
    }
  }

  lemma One(w: World, e: Event, gap: int)
    requires Sound(w) && Possible(w, e) && InTime(w, e, gap)
    ensures AllPossible(w, [e]) && AllInTime(w, [e], gap) && Play(w, [e]) == Step(w, e) && Sound(Step(w, e))
  {
    StepIsSound(w, e);
    assert [e][1..] == [];
  }

  lemma Prepend(w: World, e: Event, es: seq<Event>, gap: int)
    requires Sound(w) && Possible(w, e) && InTime(w, e, gap) && Sound(Step(w, e))
    requires AllPossible(Step(w, e), es) && AllInTime(Step(w, e), es, gap)
    ensures AllPossible(w, [e] + es) && AllInTime(w, [e] + es, gap) && Play(w, [e] + es) == Play(Step(w, e), es)
  {
    One(w, e, gap);
    Joined(w, [e], es, gap);
  }

  // ---- one comparison, from preparation to its send ----

  function AfterApproval(w: World, n: nat): World {
    w.(files := w.files.(records := w.files.records[n := Ready(n)]), clock := 0,
       grants := w.grants + [Grant(n, BoundOf(n), "a", true, true, 0)])
  }

  lemma OpenSteps(w: World, n: nat)
    requires Sound(w) && w.running.None? && n !in w.files.records
    ensures var e, f := Event.Prepare(n, BoundOf(n), "r", true, 0),
            Event.Approve(CODE, n, BoundOf(n), "a", true, true, 0);
            Possible(w, e) && Sound(Step(w, e)) && Possible(Step(w, e), f) && Step(Step(w, e), f) == AfterApproval(w, n)
  {
    var w1 := Step(w, Event.Prepare(n, BoundOf(n), "r", true, 0));
    assert w1.files.records[n] == Record(BoundOf(n), Prepared, "r", 0, LIFE, None, None);
    assert Validated(w1.files, CODE, n) == Success(w1.files.records[n]);
    assert w1.files.records[n := Ready(n)] == w.files.records[n := Ready(n)];
  }

  /** The ledger of day 0 has room, and no reading after day 0. */
  predicate Room(f: Files) { 0 <= SpentOn(f, Mode.Mock, 0) <= 90 && (f.mock.Some? ==> f.mock.value.lastAt <= 0) }

  function AfterReserve(w: World, n: nat): World
    requires Room(w.files)
  {
    w.(files := Reserve(w.files, Mode.Mock, 0).value, clock := 0, running := Some(Running(SlotOf(n), Taken)),
       slots := w.slots + [SlotOf(n)])
  }

  lemma RunStep(w: World, n: nat)
    requires Sound(w) && w.running.None? && n in w.files.records && w.files.records[n] == Ready(n) && Room(w.files)
    ensures Possible(w, Run(CODE, n, SENDER, 0)) && Step(w, Run(CODE, n, SENDER, 0)) == AfterReserve(w, n)
  {
    assert Begin(w.files, CODE, n, SENDER, 0) == Reserved(Reserve(w.files, Mode.Mock, 0).value);
  }

  lemma EndSteps(w: World, n: nat, gap: int)
    requires Sound(w) && w.running == Some(Running(SlotOf(n), Taken))
    ensures var es := [MarkSending, Send, Close(NeedsReview, "done")];
            && AllPossible(w, es) && AllInTime(w, es, gap)
            && var v := Play(w, es);
               && v.running.None? && v.sent == w.sent + [SlotOf(n)] && v.purged == w.purged
               && v.files.mock == w.files.mock && v.files.records.Keys == w.files.records.Keys
  {
    StepIsSound(w, MarkSending);
    var w1 := Step(w, MarkSending);
    StepIsSound(w1, Send);
    var w2 := Step(w1, Send);
    One(w2, Close(NeedsReview, "done"), gap);
    Prepend(w1, Send, [Close(NeedsReview, "done")], gap);
    Prepend(w, MarkSending, [Send, Close(NeedsReview, "done")], gap);
    assert [MarkSending] + ([Send] + [Close(NeedsReview, "done")]) == [MarkSending, Send, Close(NeedsReview, "done")];
  }

  /** `n` comparisons were sent on day 0, and its ledger says `cents`. */
  predicate SentSoFar(w: World, n: nat, cents: int) {
    && Sound(w) && w.running.None? && (forall id :: id in w.files.records ==> id < n)
    && SpentOn(w.files, Mode.Mock, 0) == cents && (w.files.mock.Some? ==> w.files.mock.value.lastAt <= 0)
    && CountOn(w.sent, Mode.Mock, 0) == n
  }

  lemma RunRuns(w: World, n: nat, gap: int) returns (es: seq<Event>)
    requires Sound(w) && w.running.None? && n in w.files.records && w.files.records[n] == Ready(n) && Room(w.files)
    requires w.purged.Some? ==> w.purged.value <= gap
    ensures AllPossible(w, es) && AllInTime(w, es, gap)
    ensures var v := Play(w, es);
            && v.running.None? && v.sent == w.sent + [SlotOf(n)] && v.purged == w.purged
            && v.files.mock == Reserve(w.files, Mode.Mock, 0).value.mock && v.files.records.Keys == w.files.records.Keys
  {
    RunStep(w, n);
    StepIsSound(w, Run(CODE, n, SENDER, 0));
    es := [MarkSending, Send, Close(NeedsReview, "done")];
    EndSteps(AfterReserve(w, n), n, gap);
    Prepend(w, Run(CODE, n, SENDER, 0), es, gap);
    es := [Run(CODE, n, SENDER, 0)] + es;
  }

  lemma SendOnce(w: World, n: nat, cents: int, gap: int) returns (es: seq<Event>)
    requires SentSoFar(w, n, cents) && 0 <= cents <= 90 && (w.purged.Some? ==> w.purged.value <= gap)
    ensures AllPossible(w, es) && AllInTime(w, es, gap)
    ensures SentSoFar(Play(w, es), n + 1, cents + 10) && Play(w, es).purged == w.purged
  {
    OpenSteps(w, n);
    var e, f := Event.Prepare(n, BoundOf(n), "r", true, 0), Event.Approve(CODE, n, BoundOf(n), "a", true, true, 0);
    var v := AfterApproval(w, n);
    StepIsSound(Step(w, e), f);
    es := RunRuns(v, n, gap);
    CountMore(w.sent, SlotOf(n), Mode.Mock, 0);
    Prepend(Step(w, e), f, es, gap);
    es := [f] + es;
    Prepend(w, e, es, gap);
    es := [e] + es;
  }

  lemma {:induction false} SendMany(w: World, n: nat, more: nat, gap: int) returns (es: seq<Event>)
    requires SentSoFar(w, n, 10 * n) && n + more <= 10 && w.purged.None?
    ensures AllPossible(w, es) && AllInTime(w, es, gap)
    ensures SentSoFar(Play(w, es), n + more, 10 * (n + more)) && Play(w, es).purged.None?
    decreases more
  {
    if more == 0 {
      es := [];
    } else {
      es := SendOnce(w, n, 10 * n, gap);
      var rest := SendMany(Play(w, es), n + 1, more - 1, gap);
      Joined(w, es, rest, gap);
      es := es + rest;
    }
  }

  /** A purge read on day 90 drops day 0. */
  lemma PurgeStep(w: World, n: nat, cents: int)
    requires SentSoFar(w, n, cents) && w.purged.None?
    ensures var e := PurgeDays(Mode.Mock, LEDGER_DAYS * DAY);
            Possible(w, e) && SentSoFar(Step(w, e), n, 0) && Step(w, e).purged in {None, Some(LEDGER_DAYS)}
  {
    StepIsSound(w, PurgeDays(Mode.Mock, LEDGER_DAYS * DAY));
    assert Day(LEDGER_DAYS * DAY) == LEDGER_DAYS;
  }

  /** Ten sends on day 0, a purge read on day 90, and an eleventh send read on day 0 again. */
  lemma ElevenOnOneDay(gap: int) returns (es: seq<Event>)
    requires gap >= LEDGER_DAYS
    ensures AllPossible(START, es) && AllInTime(START, es, gap)
    ensures CountOn(Play(START, es).sent, Mode.Mock, 0) == 11
  {
    es := SendMany(START, 0, 10, gap);
    var w := Play(START, es);
    var e := PurgeDays(Mode.Mock, LEDGER_DAYS * DAY);
    PurgeStep(w, 10, 100);
    var last := SendOnce(Step(w, e), 10, 0, gap);
    Prepend(w, e, last, gap);
    Joined(START, es, [e] + last, gap);
    es := es + ([e] + last);
  }

  ghost predicate Capped(gap: int) {
    forall es, mode, day {:trigger AllInTime(START, es, gap), CountOn(Play(START, es).sent, mode, day)} ::
      AllPossible(START, es) && AllInTime(START, es, gap) ==>
        RESERVE_CENTS * CountOn(Play(START, es).sent, mode, day) <= DAILY_CENTS
  }

  /**
   No day pays for more than a dollar, in every run read at most `gap` days before a purge, exactly when that is
   under 90.
   */
  lemma CappedExactly(gap: int)
    ensures Capped(gap) <==> gap < LEDGER_DAYS
  {
    if gap < LEDGER_DAYS {
      forall es, mode, day {:trigger AllInTime(START, es, gap), CountOn(Play(START, es).sent, mode, day)} |
        AllPossible(START, es) && AllInTime(START, es, gap)
        ensures RESERVE_CENTS * CountOn(Play(START, es).sent, mode, day) <= DAILY_CENTS {
        LedgerCoversSends(es, gap, mode, day);
      }
    } else {
      var es := ElevenOnOneDay(gap);
      assert AllInTime(START, es, gap) && CountOn(Play(START, es).sent, Mode.Mock, 0) == 11;
    }
  }
}
