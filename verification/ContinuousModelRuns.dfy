/**
 Two families of runs.  One sends the same item twice, for every slack of more than 89 days, so the bound on
 the slack is exact; the other leaves a result that no prune erases before its row goes.
 */
module ContinuousModelRuns {
  import opened Wrappers
  import opened ContinuousModel
  import opened ContinuousModelLaws
  import opened ContinuousModelClock

  const CODE := Code("i", map["p" := "q"])

  /** The terms of a mock campaign prepared at `made`. */
  function Terms(made: real): Binding { Binding("d", "c", "k", None, "p", "q", "i", Plan(Mode.Mock, None, Day(made))) }

  function Delivery(run: string): Request {
    Request(0, "d", "c", "k", Sources("b", "a", "m", "e", View("p", "x")), run, "r")
  }

  function Row(made: real, run: string, at: real): Item {
    var q := Delivery(run);
    Item(BoundOf(q, Terms(made)), q.sources, Some(q.sources.view), Some(RulesOf(q.sources.view)), None, run, "r", 0,
         Waiting, None, at, at, None)
  }

  const ONE := IdOf(Delivery("one"))
  const TWO := IdOf(Delivery("two"))

  function Paying(made: real, put: real): Item {
    Row(made, "one", put).(state := Sending, reservedDay := Some(Day(made)), updated := made)
  }

  function Draft(made: real): Campaign { Campaign(Terms(made), Prepared, made, made + CAMPAIGN_SECONDS, None) }

  function Running(made: real): Campaign { Draft(made).(state := Approved, actor := Some("a")) }

  // ---- the opening: a campaign made at one reading, its item delivered at another, reserved and sent ----

  function Drafted(made: real): World { World(EMPTY.(campaigns := map[0 := Draft(made)]), made, 0.0, {0}, [], {}, []) }

  function Opened(made: real): World { Drafted(made).(t := EMPTY.(campaigns := map[0 := Running(made)])) }

  function Delivered(made: real, put: real): World {
    Opened(made).(t := Opened(made).t.(outbox := map[ONE := Row(made, "one", put)]), clock := put)
  }

  function Holding(made: real, put: real): World {
    World(Tables(map[0 := Running(made)], map[], map[ONE := Paying(made, put)], map[Day(made) := 10], Some(made)),
          made, 0.0, {0}, [Attempt(ONE, made)], {0}, [])
  }

  function Paid(made: real, put: real): World { Holding(made, put).(holding := {}, sent := [ONE]) }

  lemma {:induction false} Prepend(w: World, e: Event, w2: World, es: seq<Event>, k: Slack)
    requires Possible(w, e) && InTime(w, e, k) && Step(w, e) == w2 && RunWithin(w2, es, k)
    ensures RunWithin(w, [e] + es, k) && Run(w, [e] + es) == Run(w2, es)
    ensures Allowed(w, e) && RunAllowed(w2, es) ==> RunAllowed(w, [e] + es)
  {
    assert ([e] + es)[1..] == es;
  }

  lemma DraftSteps(made: real)
    requires ClockOk(made)
    ensures Step(START, Prepare(0, Mode.Mock, Terms(made), made)) == Drafted(made)
    ensures Step(Drafted(made), Event.Mock(0, Terms(made), "a", made)) == Opened(made)
  {
    assert START.t.campaigns[0 := Draft(made)] == map[0 := Draft(made)];
    assert Drafted(made).t.campaigns[0 := Running(made)] == map[0 := Running(made)];
  }

  lemma DeliverStep(made: real, put: real)
    requires ClockOk(put)
    ensures Step(Opened(made), Deliver(CODE, Delivery("one"), put)) == Delivered(made, put)
  {
    assert Opened(made).t.outbox[ONE := Row(made, "one", put)] == map[ONE := Row(made, "one", put)];
  }

  lemma ReserveStep(made: real, put: real)
    requires ClockOk(made)
    ensures Step(Delivered(made, put), Process(CODE, ONE, MockTransport, made)) == Holding(made, put)
    ensures Step(Holding(made, put), Send(0)) == Paid(made, put)
  {
    assert Reserved(Delivered(made, put).t, 0) == {};
    var t := Delivered(made, put).t;
    assert t.outbox[ONE := Paying(made, put)] == map[ONE := Paying(made, put)];
    assert t.budget[Day(made) := 10] == map[Day(made) := 10];
  }

  function Opening(made: real, put: real, rest: seq<Event>): seq<Event> {
    [Prepare(0, Mode.Mock, Terms(made), made)] + ([Event.Mock(0, Terms(made), "a", made)]
      + ([Deliver(CODE, Delivery("one"), put)] + ([Process(CODE, ONE, MockTransport, made)] + ([Send(0)] + rest))))
  }

  lemma OpeningRuns(made: real, put: real, rest: seq<Event>, k: Slack)
    requires ClockOk(made) && ClockOk(put) && made - k.early <= put && 0.0 <= k.back
             && RunWithin(Paid(made, put), rest, k)
    ensures RunWithin(START, Opening(made, put, rest), k) && Run(START, Opening(made, put, rest))
            == Run(Paid(made, put), rest)
    ensures put == made && RunAllowed(Paid(made, put), rest) ==> RunAllowed(START, Opening(made, put, rest))
  {
    var es := [Send(0)] + rest;
    ReserveStep(made, put);
    Prepend(Holding(made, put), Send(0), Paid(made, put), rest, k);
    Prepend(Delivered(made, put), Process(CODE, ONE, MockTransport, made), Holding(made, put), es, k);
    es := [Process(CODE, ONE, MockTransport, made)] + es;
    DeliverStep(made, put);
    Prepend(Opened(made), Deliver(CODE, Delivery("one"), put), Delivered(made, put), es, k);
    es := [Deliver(CODE, Delivery("one"), put)] + es;
    DraftSteps(made);
    Prepend(Drafted(made), Event.Mock(0, Terms(made), "a", made), Opened(made), es, k);
    es := [Event.Mock(0, Terms(made), "a", made)] + es;
    Prepend(START, Prepare(0, Mode.Mock, Terms(made), made), Drafted(made), es, k);
  }

  // ---- the same item again, after a prune at `cut` ----

  /** A second item keeps the campaign from being pruned. */
  function Joined(made: real, put: real, cut: real): World {
    var w := Paid(made, put);
    w.(t := w.t.(outbox := map[ONE := Paying(made, put), TWO := Row(made, "two", cut)]), clock := cut)
  }

  function Kept90(budget: map<int, int>, cut: real): map<int, int> {
    map d | d in budget && d >= Day(cut - LEDGER_SECONDS) :: budget[d]
  }

  function Pruned(made: real, put: real, cut: real): World {
    var w := Joined(made, put, cut);
    w.(t := w.t.(outbox := map[TWO := Row(made, "two", cut)], budget := Kept90(w.t.budget, cut)), pruned := cut)
  }

  function Again(made: real, put: real, cut: real): World {
    var w := Pruned(made, put, cut);
    w.(t := w.t.(outbox := w.t.outbox[ONE := Row(made, "one", cut)]))
  }

  lemma JoinStep(made: real, put: real, cut: real)
    requires ClockOk(cut)
    ensures Step(Paid(made, put), Deliver(CODE, Delivery("two"), cut)) == Joined(made, put, cut)
  {
    assert Paid(made, put).t.outbox[TWO := Row(made, "two", cut)] == Joined(made, put, cut).t.outbox;
  }

  lemma PrunedRows(made: real, put: real, cut: real)
    requires ClockOk(cut) && put < cut - LEDGER_SECONDS
    ensures var r := ContinuousModel.Prune(Joined(made, put, cut).t, cut);
            r.Success? && r.value.outbox == map[TWO := Row(made, "two", cut)]
  {
    var t := Joined(made, put, cut).t;
    assert t.outbox.Keys == {ONE, TWO} && t.outbox[TWO] == Row(made, "two", cut);
    assert Erase(t.outbox[TWO], cut) == t.outbox[TWO];
  }

  lemma PruneStep(made: real, put: real, cut: real)
    requires ClockOk(cut) && 0.0 < cut && put < cut - LEDGER_SECONDS
    ensures Step(Joined(made, put, cut), Event.Prune(cut)) == Pruned(made, put, cut)
  {
    PrunedRows(made, put, cut);
    var t := Joined(made, put, cut).t;
    var t2 := ContinuousModel.Prune(t, cut).value;
    assert Used(t2.outbox, 0) by { assert TWO in t2.outbox; }
    assert t2.campaigns == t.campaigns;
    assert t2.approvals == t.approvals;
  }

  lemma AgainStep(made: real, put: real, cut: real)
    requires ClockOk(cut)
    ensures Step(Pruned(made, put, cut), Deliver(CODE, Delivery("one"), cut)) == Again(made, put, cut)
  {
  }

  lemma ReserveAgain(made: real, put: real, cut: real, late: real)
    requires ClockOk(late) && made <= late < made + CAMPAIGN_SECONDS && Day(made) <= Day(late) <= Day(made) + 1
    ensures Reserve(Again(made, put, cut).t, CODE, ONE, MockTransport, late).Success?
  {
    assert Reserved(Again(made, put, cut).t, 0) == {};
  }

  lemma ResendRuns(made: real, put: real, cut: real, late: real, k: Slack) returns (es: seq<Event>)
    requires ClockOk(late) && made <= late < made + CAMPAIGN_SECONDS && Day(made) <= Day(late) <= Day(made) + 1
    requires cut - k.back <= late
    ensures RunWithin(Again(made, put, cut), es, k) && Run(Again(made, put, cut), es).sent == [ONE, ONE]
  {
    var w := Again(made, put, cut);
    var w2 := Step(w, Process(CODE, ONE, MockTransport, late));
    ReserveAgain(made, put, cut, late);
    es := [Send(1)];
    assert Step(w2, Send(1)).sent == [ONE, ONE];
    assert Run(w2, es) == Step(w2, Send(1)) && RunWithin(w2, es, k);
    Prepend(w, Process(CODE, ONE, MockTransport, late), w2, es, k);
    es := [Process(CODE, ONE, MockTransport, late)] + es;
  }

  /** Where the readings of such a run may lie. */
  predicate Spread(made: real, put: real, cut: real, late: real, k: Slack) {
    && ClockOk(made) && ClockOk(put) && ClockOk(cut) && ClockOk(late) && 0.0 < cut && 0.0 <= k.back
    && made - k.early <= put && made - k.early <= cut && put < cut - LEDGER_SECONDS && cut - k.back <= late
    && made <= late < made + CAMPAIGN_SECONDS && Day(made) <= Day(late) <= Day(made) + 1
  }

  lemma PaysTwice(made: real, put: real, cut: real, late: real, k: Slack) returns (es: seq<Event>)
    requires Spread(made, put, cut, late, k)
    ensures RunWithin(START, es, k) && Sends(Run(START, es).sent, ONE) == 2
  {
    es := ResendRuns(made, put, cut, late, k);
    AgainStep(made, put, cut);
    Prepend(Pruned(made, put, cut), Deliver(CODE, Delivery("one"), cut), Again(made, put, cut), es, k);
    es := [Deliver(CODE, Delivery("one"), cut)] + es;
    PruneStep(made, put, cut);
    Prepend(Joined(made, put, cut), Event.Prune(cut), Pruned(made, put, cut), es, k);
    es := [Event.Prune(cut)] + es;
    JoinStep(made, put, cut);
    Prepend(Paid(made, put), Deliver(CODE, Delivery("two"), cut), Joined(made, put, cut), es, k);
    es := [Deliver(CODE, Delivery("two"), cut)] + es;
    OpeningRuns(made, put, es, k);
    es := Opening(made, put, es);
  }

  function Min(a: real, b: real): real { if a <= b then a else b }

  const HUNDRED_DAYS: real := 8640000.0

  /** Any slack of more than 89 days leaves room for the readings of such a run. */
  lemma LooseSlackSpreads(k: Slack) returns (put: real, cut: real, late: real)
    requires 0.0 <= k.early && 0.0 <= k.back && !Tight(k)
    ensures Spread(HUNDRED_DAYS, put, cut, late, k)
  {
    var early, back := Min(k.early, LEDGER_SECONDS), Min(k.back, LEDGER_SECONDS);
    var step := Min((early + back - (LEDGER_SECONDS - CAMPAIGN_SECONDS)) / 2.0, CAMPAIGN_SECONDS);
    put := HUNDRED_DAYS - early;
    cut := put + LEDGER_SECONDS + step;
    late := HUNDRED_DAYS + CAMPAIGN_SECONDS - step;
    assert Day(HUNDRED_DAYS) == 100 && Day(HUNDRED_DAYS + CAMPAIGN_SECONDS) == 101;
    DayMonotone(HUNDRED_DAYS, late);
    DayMonotone(late, HUNDRED_DAYS + CAMPAIGN_SECONDS);
  }

  ghost predicate AtMostOnce(k: Slack) {
    forall es, id {:trigger RunWithin(START, es, k), Sends(Run(START, es).sent, id)} ::
      RunWithin(START, es, k) ==> Sends(Run(START, es).sent, id) <= 1
  }

  /**
   Whatever the clocks, every run within a slack sends each item at most once exactly when the slack is 89
   days at most: a delivery read too early and a reservation read too late after a prune count alike.
   */
  lemma AtMostOnceExactly(k: Slack)
    requires 0.0 <= k.early && 0.0 <= k.back
    ensures AtMostOnce(k) <==> k.early + k.back <= LEDGER_SECONDS - CAMPAIGN_SECONDS
  {
    if Tight(k) {
      forall es, id {:trigger RunWithin(START, es, k), Sends(Run(START, es).sent, id)} | RunWithin(START, es, k)
        ensures Sends(Run(START, es).sent, id) <= 1 {
        SentAtMostOnce(Run(START, es), k, id);
      }
    } else {
      var put, cut, late := LooseSlackSpreads(k);
      var es := PaysTwice(HUNDRED_DAYS, put, cut, late, k);
      assert RunWithin(START, es, k) && Sends(Run(START, es).sent, ONE) == 2;
    }
  }

  // ---- a late result ----

  const EIGHT_DAYS: real := 691200.0
  const NEW := Paid(0.0, 0.0)
  const LATE_ROW := Paying(0.0, 0.0).(view := None, rules := None, state := NeedsReview, reason := Some("done"),
                                      result := Some("late"), updated := EIGHT_DAYS)
  const WIPED := NEW.(t := NEW.t.(outbox :=
                                  map[ONE := Paying(0.0, 0.0).(view := None, rules := None, updated := EIGHT_DAYS)]),
                      clock := EIGHT_DAYS, pruned := EIGHT_DAYS)
  const LATE := WIPED.(t := WIPED.t.(outbox := map[ONE := LATE_ROW]))

  lemma WipeStep()
    ensures Step(NEW, Event.Prune(EIGHT_DAYS)) == WIPED
  {
    var t2 := Kept(NEW.t, ContinuousModel.Prune(NEW.t, EIGHT_DAYS));
    assert t2.outbox == WIPED.t.outbox;
    assert t2.campaigns == NEW.t.campaigns;
    assert Day(EIGHT_DAYS - LEDGER_SECONDS) < 0;
    assert t2.budget == NEW.t.budget;
  }

  lemma LateStep()
    ensures Step(WIPED, Finish(ONE, Some("late"), "done", EIGHT_DAYS)) == LATE
  {
  }

  lemma LateRowSurvives(now: real)
    requires EIGHT_DAYS <= now <= LEDGER_SECONDS
    ensures var t := Step(LATE, Event.Prune(now)).t; ONE in t.outbox && t.outbox[ONE].result == Some("late")
  {
  }

  lemma LateRuns(now: real) returns (es: seq<Event>)
    requires EIGHT_DAYS <= now
    ensures RunAllowed(LATE, es) && RunWithin(LATE, es, PROMPT) && Run(LATE, es) == Step(LATE, Event.Prune(now))
    ensures es == [Event.Prune(now)]
  {
    es := [Event.Prune(now)];
    assert Run(Step(LATE, es[0]), es[1..]) == Step(LATE, es[0]);
  }

  /** A send that completes after the week keeps its result through every prune until the row goes. */
  lemma LateResultIsKept(now: real) returns (es: seq<Event>)
    requires EIGHT_DAYS <= now <= LEDGER_SECONDS
    ensures RunAllowed(START, es) && es != [] && es[|es| - 1] == Event.Prune(now)
    ensures ONE in Run(START, es).t.outbox && Run(START, es).t.outbox[ONE].result == Some("late")
  {
    es := LateRuns(now);
    LateRowSurvives(now);
    LateStep();
    Prepend(WIPED, Finish(ONE, Some("late"), "done", EIGHT_DAYS), LATE, es, PROMPT);
    es := [Finish(ONE, Some("late"), "done", EIGHT_DAYS)] + es;
    WipeStep();
    Prepend(NEW, Event.Prune(EIGHT_DAYS), WIPED, es, PROMPT);
    es := [Event.Prune(EIGHT_DAYS)] + es;
    OpeningRuns(0.0, 0.0, es, PROMPT);
    es := Opening(0.0, 0.0, es);
  }
}
