/**
 The two limits of the ledger, each with its own exact slack: ten items for a campaign as long as the slack
 is that of at-most-once, and a dollar for a day as long as no reservation is read 90 days before a prune.
 */
module ContinuousModelCaps {
  import opened Wrappers
  import opened ContinuousModel
  import opened ContinuousModelLaws
  import opened ContinuousModelRuns

  // ---- ten items of one campaign, one after the other ----

  function Name(n: nat): string { seq(n, i requires 0 <= i < n => 'x') }

  function Id(n: nat): OutboxId { IdOf(Delivery(Name(n))) }

  predicate RowsUpTo(t: Tables, put: real, n: nat) {
    forall i :: i in t.outbox ==>
      && |i.sourceRun| < n && t.outbox[i].sourceRun == i.sourceRun && t.outbox[i].campaign == 0
      && t.outbox[i].created == put && t.outbox[i].reservedDay.Some?
  }

  /** The first n items were delivered at `put`, and reserved and sent at `made`. */
  predicate Batch(w: World, made: real, put: real, n: nat) {
    && w.t.campaigns == map[0 := Running(made)] && w.t.approvals == map[] && w.holding == {} && w.pruned == 0.0
    && RowsUpTo(w.t, put, n) && |Reserved(w.t, 0)| == n
    && SpentOn(w.t, Day(made)) == 10 * n && w.t.budget.Keys <= {Day(made)}
       && (w.t.lastAt.Some? ==> w.t.lastAt.value == made)
    && CountOn(w.attempts, Day(made)) == n
    && (forall s :: s in w.sent ==> |s.sourceRun| < n && s.campaign == 0) && |SentOf(w.sent, 0)| == n
  }

  /** The item n as it is delivered. */
  function WithRow(w: World, made: real, at: real, n: nat): World {
    w.(t := w.t.(outbox := w.t.outbox[Id(n) := Row(made, Name(n), at)]), clock := at)
  }

  lemma DeliverNext(w: World, made: real, put: real, at: real, n: nat)
    requires Batch(w, made, put, n) && ClockOk(at)
    ensures Step(w, Deliver(CODE, Delivery(Name(n)), at)) == WithRow(w, made, at, n) && Id(n) !in w.t.outbox
  {
    assert !SourceTaken(w.t, Delivery(Name(n)));
  }

  /** The reservation of a waiting row of the campaign. */
  lemma ReserveRow(t: Tables, made: real, at: real, n: nat, now: real)
    requires Id(n) in t.outbox && t.outbox[Id(n)] == Row(made, Name(n), at) && t.campaigns == map[0 := Running(made)]
    requires ClockOk(now) && made <= now < made + CAMPAIGN_SECONDS && Day(made) <= Day(now) <= Day(made) + 1
    requires (t.lastAt.Some? ==> t.lastAt.value <= now) && |Reserved(t, 0)| < MAX_CASES && SpentOn(t, Day(now)) <= 90
    ensures var r := Reserve(t, CODE, Id(n), MockTransport, now);
            && r.Success? && r.value.budget == t.budget[Day(now) := SpentOn(t, Day(now)) + 10]
            && r.value.outbox == (
                 var paying := t.outbox[Id(n)].(state := Sending, reservedDay := Some(Day(now)), updated := now);
                 t.outbox[Id(n) := paying])
            && r.value.lastAt == Some(now) && r.value.campaigns == t.campaigns && r.value.approvals == t.approvals
  {
    assert Intact(t.outbox[Id(n)], Terms(made));
    assert Active(t, 0, now);
    assert Refusal(t, CODE, t.outbox[Id(n)], MockTransport, now).None?;
  }

  lemma ReservedMore(t: Tables, t2: Tables, id: OutboxId, item: Item)
    requires t2.outbox == t.outbox[id := item] && item.campaign == 0 && item.reservedDay.Some? && id !in Reserved(t, 0)
    ensures |Reserved(t2, 0)| == |Reserved(t, 0)| + 1
  {
    forall i ensures i in Reserved(t2, 0) <==> i in Reserved(t, 0) + {id} {
      if i != id { assert i in t2.outbox <==> i in t.outbox; }
    }
    assert Reserved(t2, 0) == Reserved(t, 0) + {id};
  }

  lemma SentMore(sent: seq<OutboxId>, id: OutboxId)
    requires id.campaign == 0 && id !in sent
    ensures SentOf(sent + [id], 0) == SentOf(sent, 0) + {id} && |SentOf(sent + [id], 0)| == |SentOf(sent, 0)| + 1
  {
  }

  lemma CountMore(attempts: seq<Attempt>, a: Attempt)
    ensures CountOn(attempts + [a], Day(a.at)) == CountOn(attempts, Day(a.at)) + 1
  {
    assert (attempts + [a])[..|attempts|] == attempts;
  }

  lemma SendRow(w: World, n: nat, now: real, k: Slack)
    requires Reserve(w.t, CODE, Id(n), MockTransport, now).Success? && w.holding == {} && w.pruned - k.back <= now
    ensures var es := [Process(CODE, Id(n), MockTransport, now), Send(|w.attempts|)];
            && RunWithin(w, es, k)
            && Run(w, es) == World(Reserve(w.t, CODE, Id(n), MockTransport, now).value, now, w.pruned, w.used,
                                   w.attempts + [Attempt(Id(n), now)], {}, w.sent + [Id(n)])
  {
    var e, f := Process(CODE, Id(n), MockTransport, now), Send(|w.attempts|);
    var w1 := Step(w, e);
    var w2 := Step(w1, f);
    assert [e, f][1..] == [f] && [f][1..] == [];
    assert w1.holding == {|w.attempts|} && w2.holding == {};
    assert Run(w1, [f]) == Run(w2, []) == w2;
    assert RunWithin(w1, [f], k) by { assert RunWithin(w2, [], k); }
  }

  lemma OneMore(w: World, made: real, put: real, n: nat, k: Slack) returns (es: seq<Event>)
    requires Batch(w, made, put, n) && n < 10 && ClockOk(made) && ClockOk(put) && made - k.early <= put && 0.0 <= k.back
    ensures RunWithin(w, es, k) && Batch(Run(w, es), made, put, n + 1)
  {
    DeliverNext(w, made, put, put, n);
    var v := WithRow(w, made, put, n);
    assert Reserved(v.t, 0) == Reserved(w.t, 0);
    ReserveRow(v.t, made, put, n, made);
    SendRow(v, n, made, k);
    es := [Process(CODE, Id(n), MockTransport, made), Send(|w.attempts|)];
    assert Run(v, es).t.outbox == w.t.outbox[Id(n) := PayingRow(made, put, n)];
    BatchGrows(w, v, Run(v, es), made, put, n);
    Prepend(w, Deliver(CODE, Delivery(Name(n)), put), v, es, k);
    es := [Deliver(CODE, Delivery(Name(n)), put)] + es;
  }

  function PayingRow(made: real, put: real, n: nat): Item {
    Row(made, Name(n), put).(state := ItemState.Sending, reservedDay := Some(Day(made)), updated := made)
  }

  lemma RowsGrow(t: Tables, t2: Tables, made: real, put: real, n: nat)
    requires RowsUpTo(t, put, n) && t2.outbox == t.outbox[Id(n) := PayingRow(made, put, n)]
    ensures RowsUpTo(t2, put, n + 1)
  {
  }

  lemma BatchGrows(w: World, v: World, u: World, made: real, put: real, n: nat)
    requires Batch(w, made, put, n) && v == WithRow(w, made, put, n) && Id(n) !in w.t.outbox && n < 10
    requires Reserved(v.t, 0) == Reserved(w.t, 0) && u.t.outbox == w.t.outbox[Id(n) := PayingRow(made, put, n)]
    requires u.t.budget == v.t.budget[Day(made) := SpentOn(v.t, Day(made)) + 10] && u.t.lastAt == Some(made)
    requires u.t.campaigns == v.t.campaigns && u.t.approvals == v.t.approvals && u.holding == {} && u.pruned == v.pruned
    requires u.attempts == v.attempts + [Attempt(Id(n), made)] && u.sent == v.sent + [Id(n)]
    ensures Batch(u, made, put, n + 1)
  {
    RowsGrow(w.t, u.t, made, put, n);
    ReservedMore(w.t, u.t, Id(n), PayingRow(made, put, n));
    SentMore(w.sent, Id(n));
    CountMore(w.attempts, Attempt(Id(n), made));
  }

  lemma {:induction false} MoreItems(w: World, made: real, put: real, n: nat, more: nat, k: Slack)
    returns (es: seq<Event>)
    requires Batch(w, made, put, n) && n + more <= 10
    requires ClockOk(made) && ClockOk(put) && made - k.early <= put && 0.0 <= k.back
    ensures RunWithin(w, es, k) && Batch(Run(w, es), made, put, n + more)
    decreases more
  {
    if more == 0 {
      es := [];
    } else {
      es := OneMore(w, made, put, n, k);
      var rest := MoreItems(Run(w, es), made, put, n + 1, more - 1, k);
      Chained(w, es, rest, k);
      es := es + rest;
    }
  }

  lemma {:induction false} Chained(w: World, a: seq<Event>, b: seq<Event>, k: Slack)
    requires RunWithin(w, a, k) && RunWithin(Run(w, a), b, k)
    ensures RunWithin(w, a + b, k) && Run(w, a + b) == Run(Run(w, a), b)
    decreases |a|
  {
    if a == [] {
      assert a + b == b;
    } else {
      assert (a + b)[1..] == a[1..] + b;
      Chained(Step(w, a[0]), a[1..], b, k);
    }
  }

  // ---- the eleventh, after a prune ----

  /** The batch is gone; the eleventh item, delivered at the prune, keeps the campaign. */
  lemma PruneBatch(w: World, made: real, put: real, cut: real)
    requires Batch(w, made, put, 10) && ClockOk(cut) && 0.0 < cut && put < cut - LEDGER_SECONDS
    ensures var t := WithRow(w, made, cut, 10).t; var r := ContinuousModel.Prune(t, cut);
            && r.Success? && r.value.outbox == map[Id(10) := Row(made, Name(10), cut)]
               && r.value.campaigns == t.campaigns
            && r.value.lastAt == t.lastAt && r.value.budget == Kept90(t.budget, cut)
  {
    var t := WithRow(w, made, cut, 10).t;
    var t2 := ContinuousModel.Prune(t, cut).value;
    assert Erase(t.outbox[Id(10)], cut) == Row(made, Name(10), cut);
    assert t2.outbox == map[Id(10) := Row(made, Name(10), cut)];
    assert Used(t2.outbox, 0) by { assert Id(10) in t2.outbox; }
    assert t2.campaigns == t.campaigns;
  }

  /** The eleventh reservation falls on another day, or the prune dropped the day. */
  predicate RoomAgain(made: real, cut: real, late: real) {
    Day(late) != Day(made) || Day(made) < Day(cut - LEDGER_SECONDS)
  }

  lemma EleventhReserves(t: Tables, made: real, put: real, cut: real, late: real, k: Slack)
    requires Spread(made, put, cut, late, k) && RoomAgain(made, cut, late)
    requires t.outbox == map[Id(10) := Row(made, Name(10), cut)] && t.campaigns == map[0 := Running(made)]
    requires (t.lastAt.Some? ==> t.lastAt.value == made)
    requires t.budget.Keys <= {Day(made)} && (Day(made) in t.budget ==> Day(made) >= Day(cut - LEDGER_SECONDS))
    ensures Reserve(t, CODE, Id(10), MockTransport, late).Success?
  {
    assert Reserved(t, 0) == {};
    ReserveRow(t, made, cut, 10, late);
  }

  lemma EleventhRuns(w: World, made: real, put: real, cut: real, late: real, k: Slack) returns (es: seq<Event>)
    requires Batch(w, made, put, 10) && Spread(made, put, cut, late, k) && RoomAgain(made, cut, late)
    ensures RunWithin(w, es, k) && Run(w, es).sent == w.sent + [Id(10)]
    ensures Run(w, es).attempts == w.attempts + [Attempt(Id(10), late)]
  {
    DeliverNext(w, made, put, cut, 10);
    var v := WithRow(w, made, cut, 10);
    PruneBatch(w, made, put, cut);
    var u := Step(v, Event.Prune(cut));
    EleventhReserves(u.t, made, put, cut, late, k);
    SendRow(u, 10, late, k);
    es := [Process(CODE, Id(10), MockTransport, late), Send(|w.attempts|)];
    Prepend(v, Event.Prune(cut), u, es, k);
    es := [Event.Prune(cut)] + es;
    Prepend(w, Deliver(CODE, Delivery(Name(10)), cut), v, es, k);
    es := [Deliver(CODE, Delivery(Name(10)), cut)] + es;
  }

  lemma OpenedIsBatch(made: real, put: real)
    ensures Batch(Opened(made), made, put, 0)
  {
    assert Reserved(Opened(made).t, 0) == {} && SentOf([], 0) == {};
  }

  /** Eleven items of one campaign are sent, the last after the others were pruned. */
  lemma ElevenAreSent(made: real, put: real, cut: real, late: real, k: Slack) returns (es: seq<Event>)
    requires Spread(made, put, cut, late, k) && RoomAgain(made, cut, late)
    ensures RunWithin(START, es, k) && |SentOf(Run(START, es).sent, 0)| == 11
    ensures Day(late) == Day(made) ==> CountOn(Run(START, es).attempts, Day(made)) == 11
  {
    OpenedIsBatch(made, put);
    es := MoreItems(Opened(made), made, put, 0, 10, k);
    var w := Run(Opened(made), es);
    var last := EleventhRuns(w, made, put, cut, late, k);
    SentMore(w.sent, Id(10));
    if Day(late) == Day(made) { CountMore(w.attempts, Attempt(Id(10), late)); }
    Chained(Opened(made), es, last, k);
    es := es + last;
    DraftSteps(made);
    Prepend(Drafted(made), Event.Mock(0, Terms(made), "a", made), Opened(made), es, k);
    es := [Event.Mock(0, Terms(made), "a", made)] + es;
    Prepend(START, Prepare(0, Mode.Mock, Terms(made), made), Drafted(made), es, k);
    es := [Prepare(0, Mode.Mock, Terms(made), made)] + es;
  }

  // ---- the limit of ten ----

  const NOON: real := HUNDRED_DAYS + DAY / 2.0

  /** Any slack of more than 89 days leaves room for an eleventh item on the second day of the campaign. */
  lemma LooseSlackNextDay(k: Slack) returns (put: real, cut: real, late: real)
    requires 0.0 <= k.early && 0.0 <= k.back && !Tight(k)
    ensures Spread(NOON, put, cut, late, k) && Day(late) != Day(NOON)
  {
    var early, back := Min(k.early, LEDGER_SECONDS), Min(k.back, LEDGER_SECONDS);
    var step := Min((early + back - (LEDGER_SECONDS - CAMPAIGN_SECONDS)) / 2.0, DAY / 2.0);
    put := NOON - early;
    cut := put + LEDGER_SECONDS + step;
    late := NOON + CAMPAIGN_SECONDS - step;
    assert Day(NOON) == 100 && Day(NOON + CAMPAIGN_SECONDS) == 101 && Day(HUNDRED_DAYS + DAY) == 101;
    DayMonotone(HUNDRED_DAYS + DAY, late);
    DayMonotone(late, NOON + CAMPAIGN_SECONDS);
  }

  ghost predicate TenAtMost(k: Slack) {
    forall es, c {:trigger RunWithin(START, es, k), SentOf(Run(START, es).sent, c)} ::
      RunWithin(START, es, k) ==> |SentOf(Run(START, es).sent, c)| <= MAX_CASES
  }

  /** No campaign ever sends more than ten items, in every run within a slack, exactly when it is 89 days at most. */
  lemma TenExactly(k: Slack)
    requires 0.0 <= k.early && 0.0 <= k.back
    ensures TenAtMost(k) <==> k.early + k.back <= LEDGER_SECONDS - CAMPAIGN_SECONDS
  {
    if Tight(k) {
      forall es, c {:trigger RunWithin(START, es, k), SentOf(Run(START, es).sent, c)} | RunWithin(START, es, k)
        ensures |SentOf(Run(START, es).sent, c)| <= MAX_CASES {
        CampaignSendsAtMostTen(Run(START, es), k, c);
      }
    } else {
      var put, cut, late := LooseSlackNextDay(k);
      var es := ElevenAreSent(NOON, put, cut, late, k);
      assert RunWithin(START, es, k) && |SentOf(Run(START, es).sent, 0)| == 11;
    }
  }

  // ---- the daily dollar ----

  /** More than 90 days back, a prune read at a midnight can drop the day that is still paying. */
  lemma LooseBackSameDay(k: Slack) returns (made: real, cut: real)
    requires 0.0 <= k.early && LEDGER_SECONDS < k.back
    ensures Spread(made, made, cut, made, k) && Day(made) < Day(cut - LEDGER_SECONDS)
  {
    var step := Min(k.back - LEDGER_SECONDS, DAY);
    made := HUNDRED_DAYS + DAY - step;
    cut := HUNDRED_DAYS + DAY + LEDGER_SECONDS;
    assert Day(HUNDRED_DAYS + DAY) == 101;
    DayBefore(made, 100);
  }

  lemma DayBefore(at: real, n: int)
    requires at < (n + 1) as real * DAY
    ensures Day(at) <= n
  {
    assert at / DAY < (n + 1) as real;
  }

  ghost predicate DollarAtMost(k: Slack) {
    forall es, day {:trigger RunWithin(START, es, k), CountOn(Run(START, es).attempts, day)} ::
      RunWithin(START, es, k) ==> RESERVE_CENTS * CountOn(Run(START, es).attempts, day) <= DAILY_CENTS
  }

  /**
   No day ever reserves more than a dollar, in every run within a slack, exactly when no reservation is read
   over 90 days before a prune.
   */
  lemma DollarExactly(k: Slack)
    requires 0.0 <= k.early && 0.0 <= k.back
    ensures DollarAtMost(k) <==> k.back <= LEDGER_SECONDS
  {
    if k.back <= LEDGER_SECONDS {
      forall es, day {:trigger RunWithin(START, es, k), CountOn(Run(START, es).attempts, day)} | RunWithin(START, es, k)
        ensures RESERVE_CENTS * CountOn(Run(START, es).attempts, day) <= DAILY_CENTS {
        BudgetIsConserved(Run(START, es), k, day);
      }
    } else {
      var made, cut := LooseBackSameDay(k);
      var es := ElevenAreSent(made, made, cut, made, k);
      assert RunWithin(START, es, k) && CountOn(Run(START, es).attempts, Day(made)) == 11;
    }
  }
}
