/**
 Every run of the model ledger: campaigns, deliveries, reservations, sends, crashes, restarts, late
 completions, stops and prunes, in any order and with any clock.  What crosses a prune needs two bounds on
 the readings, and no more: how early a delivery may be read before its campaign's creation, and how far
 back a reservation may be read after a prune.
 `attempts`, `holding`, `sent` and `pruned` are history: what was ever reserved, which committed
 reservations a live process still holds, what was ever sent, and the latest reading of a prune.
 */
module ContinuousModelLaws {
  import opened Wrappers
  import opened ContinuousModel
  import Sets

  datatype Attempt = Attempt(id: OutboxId, at: real)
  datatype World = World(t: Tables, clock: real, pruned: real, used: set<CampaignId>,
                         attempts: seq<Attempt>, holding: set<nat>, sent: seq<OutboxId>)

  const START := World(EMPTY, 0.0, 0.0, {}, [], {}, [])

  datatype Event =
    | Prepare(id: CampaignId, mode: Mode, binding: Binding, now: real)
    | Mock(id: CampaignId, hash: Binding, actor: string, now: real)
    | Live(id: CampaignId, hash: Binding, actor: string, sharingOff: bool, retentionKnown: bool, now: real)
    | Deliver(code: Code, q: Request, now: real)
    | Submit(code: Code, q: Request, now: real)
    | Process(code: Code, item: OutboxId, transport: Transport, now: real)
    | Send(attempt: nat)
    | Crash(attempt: nat)
    | Finish(item: OutboxId, result: Option<string>, reason: string, now: real)
    | Halt(campaign: CampaignId, now: real)
    | Restart(now: real)
    | Prune(now: real)

  /** Campaign ids are fresh, and only a process that holds a reservation sends. */
  predicate Possible(w: World, e: Event) {
    (e.Send? ==> e.attempt in w.holding) && (e.Prepare? ==> e.id !in w.used)
  }

  /**
   How far readings may be off: a delivery is read at most `early` seconds before its campaign's creation,
   and a reservation at most `back` seconds before any earlier prune.
   */
  datatype Slack = Slack(early: real, back: real)

  predicate InTime(w: World, e: Event, k: Slack) {
    && ((e.Deliver? || e.Submit?) && e.q.campaign in w.t.campaigns ==>
        w.t.campaigns[e.q.campaign].created - k.early <= e.now)
    && (e.Process? ==> w.pruned - k.back <= e.now)
  }

  function Kept(t: Tables, r: Result<Tables, Error>): Tables { if r.Success? then r.value else t }

  function Added(t: Tables, r: Result<(Tables, OutboxId), Error>): Tables { if r.Success? then r.value.0 else t }

  /** One event; a transaction that fails rolls back. */
  function Step(w: World, e: Event): World {
    match e
    case Prepare(id, mode, binding, now) =>
      w.(t := Kept(w.t, PrepareCampaign(w.t, id, mode, binding, now)), clock := now, used := w.used + {id})
    case Mock(id, hash, actor, now) => w.(t := Kept(w.t, ApproveMock(w.t, id, hash, actor, now)), clock := now)
    case Live(id, hash, actor, off, known, now) =>
      w.(t := Kept(w.t, ApproveLive(w.t, id, hash, actor, off, known, now)), clock := now)
    case Deliver(code, q, now) => w.(t := Added(w.t, Enqueue(w.t, code, q, now)), clock := now)
    case Submit(code, q, now) => w.(t := Added(w.t, EnqueueSubmission(w.t, code, q, now)), clock := now)
    case Process(code, item, transport, now) => Processed(w, item, now, Reserve(w.t, code, item, transport, now))
    case Send(k) =>
      if k < |w.attempts| then w.(holding := w.holding - {k}, sent := w.sent + [w.attempts[k].id]) else w
    case Crash(k) => w.(holding := w.holding - {k})
    case Finish(item, result, reason, now) => w.(t := Kept(w.t, Complete(w.t, item, result, reason, now)), clock := now)
    case Halt(c, now) => w.(t := Stop(w.t, c), clock := now)
    case Restart(now) => w.(t := Kept(w.t, Reconcile(w.t, now)), clock := now)
    case Prune(now) => w.(t := Kept(w.t, ContinuousModel.Prune(w.t, now)), clock := now,
                          pruned := Latest(w.pruned, now))
  }

  function Latest(pruned: real, now: real): real { if ClockOk(now) && now > pruned then now else pruned }

  function Processed(w: World, item: OutboxId, now: real, r: Result<Tables, Error>): World {
    if r.Failure? then w.(clock := now)
    else w.(t := r.value, clock := now, attempts := w.attempts + [Attempt(item, now)],
            holding := w.holding + {|w.attempts|})
  }

  function Run(w: World, es: seq<Event>): World
    decreases |es|
  {
    if es == [] then w else Run(Step(w, es[0]), es[1..])
  }

  predicate RunPossible(w: World, es: seq<Event>)
    decreases |es|
  {
    es == [] || (Possible(w, es[0]) && RunPossible(Step(w, es[0]), es[1..]))
  }

  predicate RunWithin(w: World, es: seq<Event>, k: Slack)
    decreases |es|
  {
    es == [] || (Possible(w, es[0]) && InTime(w, es[0], k) && RunWithin(Step(w, es[0]), es[1..], k))
  }

  // ---- what every run keeps, with any clock ----

  predicate Recorded(attempts: seq<Attempt>, id: OutboxId, day: int) {
    exists k :: 0 <= k < |attempts| && attempts[k].id == id && Day(attempts[k].at) == day
  }

  predicate CampaignOk(w: World, c: CampaignId)
    requires c in w.t.campaigns
  {
    c in w.used && w.t.campaigns[c].expires == w.t.campaigns[c].created + CAMPAIGN_SECONDS
  }

  predicate RowOk(w: World, i: OutboxId)
    requires i in w.t.outbox
  {
    var r := w.t.outbox[i];
    && r.campaign == i.campaign && r.campaign in w.t.campaigns
    && (r.state.Waiting? <==> r.reservedDay.None?)
    && (r.reservedDay.Some? ==> Recorded(w.attempts, i, r.reservedDay.value))
    && (r.view.Some? ==> Intact(r, w.t.campaigns[r.campaign].binding))
    && (r.view.None? ==> r.rules.None?)
  }

  predicate CampaignsOk(w: World) { forall c {:trigger CampaignOk(w, c)} :: c in w.t.campaigns ==> CampaignOk(w, c) }

  predicate RowsOk(w: World) { forall i {:trigger RowOk(w, i)} :: i in w.t.outbox ==> RowOk(w, i) }

  predicate Formed(w: World) { CampaignsOk(w) && RowsOk(w) }

  // ---- steps that never add a campaign, a row or a reservation ----

  predicate CampaignFades(m: Campaign, m2: Campaign) {
    m2.binding == m.binding && m2.created == m.created && m2.expires == m.expires
  }

  predicate RowFades(r: Item, r2: Item) {
    && r2.bound == r.bound && r2.sources == r.sources && r2.sourceRun == r.sourceRun && r2.rulesRef == r.rulesRef
    && r2.campaign == r.campaign && r2.created == r.created && r2.reservedDay == r.reservedDay
    && (r2.state.Waiting? <==> r.state.Waiting?)
    && ((r2.view == r.view && r2.rules == r.rules) || (r2.view.None? && r2.rules.None?))
  }

  predicate CampaignsFade(t: Tables, t2: Tables) {
    forall c :: c in t2.campaigns ==> c in t.campaigns && CampaignFades(t.campaigns[c], t2.campaigns[c])
  }

  predicate RowsFade(t: Tables, t2: Tables) {
    forall i :: i in t2.outbox ==>
      i in t.outbox && RowFades(t.outbox[i], t2.outbox[i]) && t2.outbox[i].campaign in t2.campaigns
  }

  /** Rows and budget days that are gone were 90 days old at the latest prune. */
  predicate OldGo(t: Tables, t2: Tables, pruned: real) {
    && (forall i :: i in t.outbox && i !in t2.outbox ==> t.outbox[i].created < pruned - LEDGER_SECONDS)
    && (forall d :: d in t2.budget ==> d in t.budget && t2.budget[d] == t.budget[d])
    && (forall d :: d in t.budget && d !in t2.budget ==> d < Day(pruned - LEDGER_SECONDS))
  }

  predicate Fades(t: Tables, t2: Tables, pruned: real) {
    CampaignsFade(t, t2) && RowsFade(t, t2) && OldGo(t, t2, pruned)
  }

  lemma DayMonotone(a: real, b: real)
    requires a <= b
    ensures Day(a) <= Day(b)
  {
    assert a / DAY <= b / DAY;
  }

  lemma FadingKeepsFormed(w: World, w2: World)
    requires Formed(w) && CampaignsFade(w.t, w2.t) && RowsFade(w.t, w2.t)
    requires w2.used == w.used && w2.attempts == w.attempts
    ensures Formed(w2)
  {
    forall c | c in w2.t.campaigns ensures CampaignOk(w2, c) {
      assert CampaignOk(w, c);
    }
    forall i | i in w2.t.outbox ensures RowOk(w2, i) {
      assert RowOk(w, i);
    }
  }

  lemma SameTablesFade(w: World)
    requires RowsOk(w)
    ensures Fades(w.t, w.t, w.pruned)
  {
    forall i | i in w.t.outbox ensures w.t.outbox[i].campaign in w.t.campaigns {
      assert RowOk(w, i);
    }
  }

  lemma ApprovalFades(w: World, id: CampaignId, state: CampaignState, actor: Option<string>,
                      approvals: map<CampaignId, Approval>)
    requires RowsOk(w) && id in w.t.campaigns
    ensures Fades(w.t, w.t.(campaigns := w.t.campaigns[id := w.t.campaigns[id].(state := state, actor := actor)],
                            approvals := approvals), w.pruned)
  {
    SameTablesFade(w);
  }

  lemma CompleteFades(w: World, id: OutboxId, result: Option<string>, reason: string, now: real)
    requires RowsOk(w)
    ensures Fades(w.t, Kept(w.t, Complete(w.t, id, result, reason, now)), w.pruned)
  {
    SameTablesFade(w);
  }

  lemma ReconcileFades(w: World, now: real)
    requires RowsOk(w)
    ensures Fades(w.t, Kept(w.t, Reconcile(w.t, now)), w.pruned)
  {
    SameTablesFade(w);
  }

  /** A row that stays keeps its campaign. */
  lemma PruneKeepsCampaigns(w: World, t2: Tables, now: real)
    requires RowsOk(w) && ContinuousModel.Prune(w.t, now) == Success(t2)
    ensures CampaignsFade(w.t, t2) && forall i :: i in t2.outbox ==> t2.outbox[i].campaign in t2.campaigns
  {
    forall i | i in t2.outbox ensures t2.outbox[i].campaign in t2.campaigns {
      assert RowOk(w, i);
      assert Used(t2.outbox, t2.outbox[i].campaign);
    }
  }

  lemma PruneDropsOld(t: Tables, t2: Tables, now: real, pruned: real)
    requires ContinuousModel.Prune(t, now) == Success(t2) && now <= pruned
    ensures OldGo(t, t2, pruned)
  {
    DayMonotone(now - LEDGER_SECONDS, pruned - LEDGER_SECONDS);
  }

  lemma PruneErases(t: Tables, t2: Tables, now: real)
    requires ContinuousModel.Prune(t, now) == Success(t2)
    ensures forall i :: i in t2.outbox ==> i in t.outbox && RowFades(t.outbox[i], t2.outbox[i])
  {
  }

  lemma PrunedFades(w: World, t2: Tables, now: real)
    requires RowsOk(w) && ContinuousModel.Prune(w.t, now) == Success(t2)
    ensures Fades(w.t, t2, Latest(w.pruned, now)) && t2.lastAt == w.t.lastAt
  {
    PruneKeepsCampaigns(w, t2, now);
    PruneErases(w.t, t2, now);
    PruneDropsOld(w.t, t2, now, Latest(w.pruned, now));
  }

  lemma PruneFades(w: World, now: real)
    requires RowsOk(w)
    ensures var w2 := Step(w, Event.Prune(now)); Fades(w.t, w2.t, w2.pruned) && w2.t.lastAt == w.t.lastAt
  {
    var r := ContinuousModel.Prune(w.t, now);
    if r.Success? { PrunedFades(w, r.value, now); } else { SameTablesFade(w); }
  }

  /** Approvals, completions, stops, restarts and prunes only let things fade. */
  predicate Fading(e: Event) { e.Mock? || e.Live? || e.Halt? || e.Finish? || e.Restart? || e.Prune? }

  lemma FadingStepFades(w: World, e: Event)
    requires RowsOk(w) && Fading(e)
    ensures Fades(w.t, Step(w, e).t, Step(w, e).pruned)
    ensures Step(w, e) == w.(t := Step(w, e).t, clock := e.now, pruned := Step(w, e).pruned)
    ensures w.pruned <= Step(w, e).pruned && Step(w, e).t.lastAt == w.t.lastAt
  {
    if e.Finish? {
      CompleteFades(w, e.item, e.result, e.reason, e.now);
    } else if e.Restart? {
      ReconcileFades(w, e.now);
    } else if e.Prune? {
      PruneFades(w, e.now);
    } else {
      ApprovalStepFades(w, e);
    }
  }

  lemma ApprovalStepFades(w: World, e: Event)
    requires RowsOk(w) && (e.Mock? || e.Live? || e.Halt?)
    ensures Fades(w.t, Step(w, e).t, w.pruned) && Step(w, e).t.lastAt == w.t.lastAt
  {
    var w2 := Step(w, e);
    if w2.t == w.t {
      SameTablesFade(w);
    } else {
      var id := if e.Halt? then e.campaign else e.id;
      ApprovalFades(w, id, w2.t.campaigns[id].state, w2.t.campaigns[id].actor, w2.t.approvals);
      assert w2.t.campaigns[id] == w.t.campaigns[id].(state := w2.t.campaigns[id].state,
                                                      actor := w2.t.campaigns[id].actor);
    }
  }

  lemma PrepareKeepsFormed(w: World, e: Event)
    requires Formed(w) && Possible(w, e) && e.Prepare?
    ensures Formed(Step(w, e))
  {
    var w2 := Step(w, e);
    forall c | c in w2.t.campaigns ensures CampaignOk(w2, c) {
      if c in w.t.campaigns { assert CampaignOk(w, c); }
    }
    forall i | i in w2.t.outbox ensures RowOk(w2, i) {
      assert RowOk(w, i);
      assert CampaignOk(w, w.t.outbox[i].campaign);
    }
  }

  /** A delivery inserts one row of a known campaign, or changes nothing. */
  lemma DeliveryInserts(w: World, e: Event)
    requires e.Deliver? || e.Submit?
    ensures var w2 := Step(w, e);
            && w2 == w.(t := w2.t, clock := e.now)
            && (w2.t != w.t ==>
                  && e.q.campaign in w.t.campaigns && IdOf(e.q) !in w.t.outbox
                  && Insert(w.t, e.q, w.t.campaigns[e.q.campaign].binding, e.now) == Success((w2.t, IdOf(e.q))))
  {
  }

  lemma NewRowKeepsFormed(w: World, q: Request, now: real, t2: Tables)
    requires Formed(w) && q.campaign in w.t.campaigns && IdOf(q) !in w.t.outbox
    requires Insert(w.t, q, w.t.campaigns[q.campaign].binding, now) == Success((t2, IdOf(q)))
    ensures Formed(w.(t := t2, clock := now))
  {
    var w2 := w.(t := t2, clock := now);
    forall c | c in w2.t.campaigns ensures CampaignOk(w2, c) {
      assert CampaignOk(w, c);
    }
    forall i | i in w2.t.outbox ensures RowOk(w2, i) {
      if i in w.t.outbox { assert RowOk(w, i); }
    }
  }

  lemma ReserveKeepsFormed(w: World, code: Code, id: OutboxId, transport: Transport, now: real)
    requires Formed(w) && Reserve(w.t, code, id, transport, now).Success?
    ensures Formed(Processed(w, id, now, Reserve(w.t, code, id, transport, now)))
  {
    var w2 := Processed(w, id, now, Reserve(w.t, code, id, transport, now));
    assert w2.attempts[|w.attempts|] == Attempt(id, now);
    forall c | c in w2.t.campaigns ensures CampaignOk(w2, c) {
      assert CampaignOk(w, c);
    }
    forall i | i in w2.t.outbox ensures RowOk(w2, i) {
      assert RowOk(w, i);
      var day := w2.t.outbox[i].reservedDay;
      if i != id && day.Some? {
        var k :| 0 <= k < |w.attempts| && w.attempts[k].id == i && Day(w.attempts[k].at) == day.value;
        assert w2.attempts[k] == w.attempts[k];
      }
    }
  }

  lemma SameTablesKeepFormed(w: World, w2: World)
    requires Formed(w) && w2.t == w.t && w2.used == w.used && w2.attempts == w.attempts
    ensures Formed(w2)
  {
    SameTablesFade(w);
    FadingKeepsFormed(w, w2);
  }

  lemma StepKeepsFormed(w: World, e: Event)
    requires Formed(w) && Possible(w, e)
    ensures Formed(Step(w, e))
  {
    var w2 := Step(w, e);
    if Fading(e) {
      FadingStepFades(w, e);
      FadingKeepsFormed(w, w2);
    } else if e.Prepare? {
      PrepareKeepsFormed(w, e);
    } else if (e.Deliver? || e.Submit?) && w2.t != w.t {
      DeliveryInserts(w, e);
      NewRowKeepsFormed(w, e.q, e.now, w2.t);
    } else if e.Process? && Reserve(w.t, e.code, e.item, e.transport, e.now).Success? {
      ReserveKeepsFormed(w, e.code, e.item, e.transport, e.now);
    } else {
      SameTablesKeepFormed(w, w2);
    }
  }

  // ---- what runs within a slack of 89 days keep ----

  /** The rows last 90 days and a campaign one: both kinds of slack together may use up the difference. */
  predicate Tight(k: Slack) { 0.0 <= k.early && 0.0 <= k.back && k.early + k.back <= LEDGER_SECONDS - CAMPAIGN_SECONDS }

  predicate Dead(t: Tables, c: CampaignId, now: real) { c !in t.campaigns || t.campaigns[c].expires <= now }

  function CountOn(attempts: seq<Attempt>, day: int): nat {
    if attempts == [] then 0
    else CountOn(attempts[..|attempts| - 1], day) + if Day(attempts[|attempts| - 1].at) == day then 1 else 0
  }

  function IdsOf(attempts: seq<Attempt>, c: CampaignId): set<OutboxId> {
    set k | 0 <= k < |attempts| && attempts[k].id.campaign == c :: attempts[k].id
  }

  /** No row is older than its campaign by more than the slack. */
  predicate DatedOk(w: World, k: Slack, i: OutboxId)
    requires i in w.t.outbox
  {
    var r := w.t.outbox[i];
    r.campaign in w.t.campaigns ==> w.t.campaigns[r.campaign].created - k.early <= r.created
  }

  /** A reservation is still on its row, or its campaign can never be active again. */
  predicate AttemptOk(w: World, k: Slack, a: Attempt) {
    && a.id.campaign in w.used
    && (Dead(w.t, a.id.campaign, w.pruned - k.back)
        || (a.id in w.t.outbox && w.t.outbox[a.id].reservedDay == Some(Day(a.at))))
  }

  predicate DayOk(w: World, d: int) {
    && CountOn(w.attempts, d) <= 10
    && (d in w.t.budget ==> w.t.budget[d] == 10 * CountOn(w.attempts, d))
    && (d !in w.t.budget && d >= Day(w.pruned - LEDGER_SECONDS) ==> CountOn(w.attempts, d) == 0)
  }

  predicate RowsDated(w: World, k: Slack) {
    forall i {:trigger DatedOk(w, k, i)} :: i in w.t.outbox ==> DatedOk(w, k, i)
  }

  predicate AttemptsOk(w: World, k: Slack) {
    forall a {:trigger AttemptOk(w, k, a)} :: a in w.attempts ==> AttemptOk(w, k, a)
  }

  predicate Distinct(attempts: seq<Attempt>) {
    forall j, k :: 0 <= j < k < |attempts| ==> attempts[j].id != attempts[k].id
  }

  ghost predicate DaysOk(w: World) { forall d {:trigger DayOk(w, d)} :: DayOk(w, d) }

  ghost predicate LimitsOk(w: World) { forall c {:trigger IdsOf(w.attempts, c)} :: |IdsOf(w.attempts, c)| <= MAX_CASES }

  predicate SentOk(attempts: seq<Attempt>, holding: set<nat>, sent: seq<OutboxId>) {
    && (forall k :: k in holding ==> k < |attempts| && attempts[k].id !in sent)
    && (forall s :: s in sent ==> exists k :: 0 <= k < |attempts| && attempts[k].id == s)
    && (forall j, k :: 0 <= j < k < |sent| ==> sent[j] != sent[k])
  }

  ghost predicate Inv(w: World, k: Slack) {
    && Formed(w) && RowsDated(w, k) && AttemptsOk(w, k) && Distinct(w.attempts) && DaysOk(w) && LimitsOk(w)
    && SentOk(w.attempts, w.holding, w.sent)
  }

  /** A row old enough to be deleted belongs to a campaign that ended long ago. */
  lemma OldRowsAreDead(w: World, k: Slack, i: OutboxId, pruned: real)
    requires Formed(w) && RowsDated(w, k) && Tight(k) && i in w.t.outbox
             && w.t.outbox[i].created < pruned - LEDGER_SECONDS
    ensures Dead(w.t, i.campaign, pruned - k.back)
  {
    assert RowOk(w, i) && DatedOk(w, k, i);
    assert CampaignOk(w, i.campaign);
  }

  lemma FadingKeepsAttempts(w: World, k: Slack, w2: World)
    requires Tight(k) && Formed(w) && RowsDated(w, k) && AttemptsOk(w, k)
    requires w.pruned <= w2.pruned && Fades(w.t, w2.t, w2.pruned)
    requires w2.attempts == w.attempts && w2.used == w.used
    ensures AttemptsOk(w2, k)
  {
    forall a | a in w2.attempts ensures AttemptOk(w2, k, a) {
      assert AttemptOk(w, k, a);
      if a.id in w.t.outbox && a.id !in w2.t.outbox { OldRowsAreDead(w, k, a.id, w2.pruned); }
    }
  }

  lemma FadingKeepsDays(w: World, w2: World)
    requires DaysOk(w) && w.pruned <= w2.pruned && OldGo(w.t, w2.t, w2.pruned) && w2.attempts == w.attempts
    ensures DaysOk(w2)
  {
    DayMonotone(w.pruned - LEDGER_SECONDS, w2.pruned - LEDGER_SECONDS);
    forall d ensures DayOk(w2, d) {
      assert DayOk(w, d);
    }
  }

  lemma SameAttemptsKeepLimits(w: World, w2: World)
    requires LimitsOk(w) && w2.attempts == w.attempts
    ensures LimitsOk(w2)
  {
    forall c ensures |IdsOf(w2.attempts, c)| <= MAX_CASES {
      assert |IdsOf(w.attempts, c)| <= MAX_CASES;
    }
  }

  lemma FadingKeepsInv(w: World, k: Slack, w2: World)
    requires Inv(w, k) && Tight(k) && w.pruned <= w2.pruned && Fades(w.t, w2.t, w2.pruned)
    requires w2.attempts == w.attempts && w2.used == w.used && w2.holding == w.holding && w2.sent == w.sent
    ensures Inv(w2, k)
  {
    FadingKeepsFormed(w, w2);
    FadingKeepsAttempts(w, k, w2);
    FadingKeepsDays(w, w2);
    SameAttemptsKeepLimits(w, w2);
    forall i | i in w2.t.outbox ensures DatedOk(w2, k, i) {
      assert DatedOk(w, k, i) && RowOk(w, i);
    }
  }

  lemma PrepareKeepsInv(w: World, k: Slack, e: Event)
    requires Inv(w, k) && Possible(w, e) && e.Prepare?
    ensures Inv(Step(w, e), k)
  {
    var w2 := Step(w, e);
    PrepareKeepsFormed(w, e);
    forall i | i in w2.t.outbox ensures DatedOk(w2, k, i) {
      assert DatedOk(w, k, i) && RowOk(w, i);
      assert CampaignOk(w, w.t.outbox[i].campaign);
    }
    forall a | a in w2.attempts ensures AttemptOk(w2, k, a) {
      assert AttemptOk(w, k, a);
    }
    forall d ensures DayOk(w2, d) {
      assert DayOk(w, d);
    }
    SameAttemptsKeepLimits(w, w2);
  }

  lemma NewRowKeepsInv(w: World, k: Slack, e: Event)
    requires Inv(w, k) && InTime(w, e, k) && (e.Deliver? || e.Submit?) && Step(w, e).t != w.t
    ensures Inv(Step(w, e), k)
  {
    var w2 := Step(w, e);
    DeliveryInserts(w, e);
    NewRowKeepsFormed(w, e.q, e.now, w2.t);
    forall i | i in w2.t.outbox ensures DatedOk(w2, k, i) {
      if i in w.t.outbox { assert DatedOk(w, k, i); }
    }
    forall a | a in w2.attempts ensures AttemptOk(w2, k, a) {
      assert AttemptOk(w, k, a);
    }
    forall d ensures DayOk(w2, d) {
      assert DayOk(w, d);
    }
    SameAttemptsKeepLimits(w, w2);
  }

  /** What was reserved once is never reserved again, whatever was pruned and enqueued in between. */
  lemma ReservedOnce(w: World, k: Slack, j: nat, code: Code, transport: Transport, now: real)
    requires Inv(w, k) && w.pruned - k.back <= now && j < |w.attempts|
    ensures Reserve(w.t, code, w.attempts[j].id, transport, now).Failure?
  {
    var id := w.attempts[j].id;
    assert AttemptOk(w, k, w.attempts[j]);
    if id in w.t.outbox { assert RowOk(w, id); }
  }

  lemma NewAttemptIsDistinct(w: World, k: Slack, code: Code, id: OutboxId, transport: Transport, now: real)
    requires Inv(w, k) && w.pruned - k.back <= now && Reserve(w.t, code, id, transport, now).Success?
    ensures forall j :: 0 <= j < |w.attempts| ==> w.attempts[j].id != id
  {
    forall j | 0 <= j < |w.attempts| ensures w.attempts[j].id != id {
      if w.attempts[j].id == id { ReservedOnce(w, k, j, code, transport, now); }
    }
  }

  /** While a campaign can still send, its reserved rows are exactly its reservations. */
  lemma ReservedRowsAreAttempts(w: World, k: Slack, c: CampaignId, now: real)
    requires Inv(w, k) && w.pruned - k.back <= now && Active(w.t, c, now)
    ensures Reserved(w.t, c) == IdsOf(w.attempts, c)
  {
    forall i | i in Reserved(w.t, c) ensures i in IdsOf(w.attempts, c) {
      assert RowOk(w, i);
    }
    forall i | i in IdsOf(w.attempts, c) ensures i in Reserved(w.t, c) {
      var j :| 0 <= j < |w.attempts| && w.attempts[j].id == i;
      assert AttemptOk(w, k, w.attempts[j]);
      assert RowOk(w, i);
    }
  }

  lemma ReserveNeedsRoom(t: Tables, code: Code, id: OutboxId, transport: Transport, now: real)
    requires Reserve(t, code, id, transport, now).Success?
    ensures id in t.outbox && Active(t, t.outbox[id].campaign, now)
    ensures |Reserved(t, t.outbox[id].campaign)| < MAX_CASES
  {
  }

  lemma MoreKeepsLimits(attempts: seq<Attempt>, a: Attempt)
    requires forall c {:trigger IdsOf(attempts, c)} :: |IdsOf(attempts, c)| <= MAX_CASES
    requires |IdsOf(attempts, a.id.campaign)| < MAX_CASES
    ensures forall c {:trigger IdsOf(attempts + [a], c)} :: |IdsOf(attempts + [a], c)| <= MAX_CASES
  {
    forall c ensures |IdsOf(attempts + [a], c)| <= MAX_CASES {
      assert |IdsOf(attempts, c)| <= MAX_CASES;
      IdsOfMore(attempts, a, c);
    }
  }

  lemma ReserveKeepsLimits(w: World, k: Slack, code: Code, id: OutboxId, transport: Transport, now: real)
    requires Inv(w, k) && w.pruned - k.back <= now && Reserve(w.t, code, id, transport, now).Success?
    ensures LimitsOk(Processed(w, id, now, Reserve(w.t, code, id, transport, now)))
  {
    ReserveNeedsRoom(w.t, code, id, transport, now);
    assert RowOk(w, id);
    ReservedRowsAreAttempts(w, k, id.campaign, now);
    MoreKeepsLimits(w.attempts, Attempt(id, now));
  }

  lemma IdsOfMore(attempts: seq<Attempt>, a: Attempt, c: CampaignId)
    ensures IdsOf(attempts + [a], c) == IdsOf(attempts, c) + if a.id.campaign == c then {a.id} else {}
  {
    var more := attempts + [a];
    forall i | i in IdsOf(attempts, c) ensures i in IdsOf(more, c) {
      var k :| 0 <= k < |attempts| && attempts[k].id == i;
      assert more[k].id == i;
    }
    if a.id.campaign == c { assert more[|attempts|].id in IdsOf(more, c); }
  }

  lemma ReserveKeepsDays(w: World, k: Slack, code: Code, id: OutboxId, transport: Transport, now: real)
    requires DaysOk(w) && k.back <= LEDGER_SECONDS && w.pruned - k.back <= now
             && Reserve(w.t, code, id, transport, now).Success?
    ensures DaysOk(Processed(w, id, now, Reserve(w.t, code, id, transport, now)))
  {
    var w2 := Processed(w, id, now, Reserve(w.t, code, id, transport, now));
    DayMonotone(w.pruned - LEDGER_SECONDS, now);
    assert w2.attempts[..|w.attempts|] == w.attempts;
    forall d ensures DayOk(w2, d) {
      assert DayOk(w, d);
    }
  }

  lemma ReserveKeepsAttempts(w: World, k: Slack, code: Code, id: OutboxId, transport: Transport, now: real)
    requires Inv(w, k) && w.pruned - k.back <= now && Reserve(w.t, code, id, transport, now).Success?
    ensures AttemptsOk(Processed(w, id, now, Reserve(w.t, code, id, transport, now)), k)
  {
    var w2 := Processed(w, id, now, Reserve(w.t, code, id, transport, now));
    NewAttemptIsDistinct(w, k, code, id, transport, now);
    assert RowOk(w, id) && CampaignOk(w, id.campaign);
    forall a | a in w2.attempts ensures AttemptOk(w2, k, a) {
      if a in w.attempts { assert AttemptOk(w, k, a); } else { assert a == Attempt(id, now); }
    }
  }

  lemma ReserveKeepsSent(w: World, k: Slack, code: Code, id: OutboxId, transport: Transport, now: real)
    requires Inv(w, k) && w.pruned - k.back <= now && Reserve(w.t, code, id, transport, now).Success?
    ensures var w2 := Processed(w, id, now, Reserve(w.t, code, id, transport, now));
            Distinct(w2.attempts) && SentOk(w2.attempts, w2.holding, w2.sent)
  {
    var w2 := Processed(w, id, now, Reserve(w.t, code, id, transport, now));
    NewAttemptIsDistinct(w, k, code, id, transport, now);
    forall s | s in w2.sent ensures exists k :: 0 <= k < |w2.attempts| && w2.attempts[k].id == s {
      var k :| 0 <= k < |w.attempts| && w.attempts[k].id == s;
      assert w2.attempts[k].id == s;
    }
  }

  lemma ReserveKeepsInv(w: World, k: Slack, code: Code, id: OutboxId, transport: Transport, now: real)
    requires Inv(w, k) && Tight(k) && w.pruned - k.back <= now && Reserve(w.t, code, id, transport, now).Success?
    ensures Inv(Processed(w, id, now, Reserve(w.t, code, id, transport, now)), k)
  {
    var w2 := Processed(w, id, now, Reserve(w.t, code, id, transport, now));
    ReserveKeepsFormed(w, code, id, transport, now);
    ReserveKeepsLimits(w, k, code, id, transport, now);
    ReserveKeepsDays(w, k, code, id, transport, now);
    ReserveKeepsAttempts(w, k, code, id, transport, now);
    ReserveKeepsSent(w, k, code, id, transport, now);
    forall i | i in w2.t.outbox ensures DatedOk(w2, k, i) {
      assert DatedOk(w, k, i);
    }
  }

  lemma SentLogGrows(attempts: seq<Attempt>, holding: set<nat>, sent: seq<OutboxId>, k: nat)
    requires Distinct(attempts) && SentOk(attempts, holding, sent) && k in holding
    ensures SentOk(attempts, holding - {k}, sent + [attempts[k].id])
  {
  }

  /** Steps that leave the tables and the attempts alone. */
  lemma HistoryKeepsInv(w: World, k: Slack, w2: World)
    requires Inv(w, k) && SentOk(w2.attempts, w2.holding, w2.sent)
    requires w2.t == w.t && w2.used == w.used && w2.attempts == w.attempts && w2.pruned == w.pruned
    ensures Inv(w2, k)
  {
    SameTablesKeepFormed(w, w2);
    forall i | i in w2.t.outbox ensures DatedOk(w2, k, i) { assert DatedOk(w, k, i); }
    forall a | a in w2.attempts ensures AttemptOk(w2, k, a) { assert AttemptOk(w, k, a); }
    forall d ensures DayOk(w2, d) { assert DayOk(w, d); }
    SameAttemptsKeepLimits(w, w2);
  }

  lemma StepKeepsInv(w: World, k: Slack, e: Event)
    requires Inv(w, k) && Tight(k) && Possible(w, e) && InTime(w, e, k)
    ensures Inv(Step(w, e), k)
  {
    var w2 := Step(w, e);
    if Fading(e) {
      FadingStepFades(w, e);
      FadingKeepsInv(w, k, w2);
    } else if e.Prepare? {
      PrepareKeepsInv(w, k, e);
    } else if (e.Deliver? || e.Submit?) && w2.t != w.t {
      NewRowKeepsInv(w, k, e);
    } else if e.Process? && Reserve(w.t, e.code, e.item, e.transport, e.now).Success? {
      ReserveKeepsInv(w, k, e.code, e.item, e.transport, e.now);
    } else {
      if e.Send? { SentLogGrows(w.attempts, w.holding, w.sent, e.attempt); }
      HistoryKeepsInv(w, k, w2);
    }
  }

  lemma {:induction false} RunKeepsInv(w: World, k: Slack, es: seq<Event>)
    requires Inv(w, k) && Tight(k) && RunWithin(w, es, k)
    ensures Inv(Run(w, es), k)
    decreases |es|
  {
    if es != [] {
      StepKeepsInv(w, k, es[0]);
      RunKeepsInv(Step(w, es[0]), k, es[1..]);
    }
  }

  // The budget needs the slack of reservations only.

  lemma SameBudgetKeepsDays(w: World, w2: World)
    requires DaysOk(w) && w2.t.budget == w.t.budget && w2.attempts == w.attempts && w2.pruned == w.pruned
    ensures DaysOk(w2)
  {
    forall d ensures DayOk(w2, d) {
      assert DayOk(w, d);
    }
  }

  lemma StepKeepsDays(w: World, k: Slack, e: Event)
    requires Formed(w) && DaysOk(w) && k.back <= LEDGER_SECONDS && Possible(w, e) && InTime(w, e, k)
    ensures DaysOk(Step(w, e))
  {
    if Fading(e) {
      FadingStepFades(w, e);
      FadingKeepsDays(w, Step(w, e));
    } else if e.Process? && Reserve(w.t, e.code, e.item, e.transport, e.now).Success? {
      ReserveKeepsDays(w, k, e.code, e.item, e.transport, e.now);
    } else {
      SameBudgetKeepsDays(w, Step(w, e));
    }
  }

  lemma {:induction false} RunKeepsDays(w: World, k: Slack, es: seq<Event>)
    requires Formed(w) && DaysOk(w) && k.back <= LEDGER_SECONDS && RunWithin(w, es, k)
    ensures DaysOk(Run(w, es))
    decreases |es|
  {
    if es != [] {
      StepKeepsFormed(w, es[0]);
      StepKeepsDays(w, k, es[0]);
      RunKeepsDays(Step(w, es[0]), k, es[1..]);
    }
  }

  lemma StartInv(k: Slack)
    ensures Inv(START, k)
  {
    forall d ensures DayOk(START, d) {}
    forall c ensures |IdsOf(START.attempts, c)| <= MAX_CASES { assert IdsOf([], c) == {}; }
  }

  /** A ledger some run within the slack leads to. */
  ghost predicate Reachable(w: World, k: Slack) {
    exists es {:trigger Run(START, es)} :: RunWithin(START, es, k) && w == Run(START, es)
  }

  lemma ReachableKeepsInv(w: World, k: Slack)
    requires Reachable(w, k) && Tight(k)
    ensures Inv(w, k)
  {
    var es :| RunWithin(START, es, k) && w == Run(START, es);
    StartInv(k);
    RunKeepsInv(START, k, es);
  }

  // ---- what that gives ----

  function Sends(sent: seq<OutboxId>, id: OutboxId): nat { multiset(sent)[id] }

  lemma {:induction false} DistinctCountsOnce(sent: seq<OutboxId>, id: OutboxId)
    requires forall j, k :: 0 <= j < k < |sent| ==> sent[j] != sent[k]
    ensures Sends(sent, id) <= 1
  {
    if sent != [] {
      var n := |sent| - 1;
      DistinctCountsOnce(sent[..n], id);
      assert sent == sent[..n] + [sent[n]];
      assert sent[n] !in sent[..n];
    }
  }

  /** An item is paid for at most once, and only after its reservation was committed. */
  lemma SentAtMostOnce(w: World, k: Slack, id: OutboxId)
    requires Reachable(w, k) && Tight(k)
    ensures Sends(w.sent, id) <= 1
    ensures id in w.sent ==> exists j :: 0 <= j < |w.attempts| && w.attempts[j].id == id
  {
    ReachableKeepsInv(w, k);
    DistinctCountsOnce(w.sent, id);
  }

  /** Whatever is pruned and enqueued again, an item that was sent can never be reserved again. */
  lemma SentIsNeverReservedAgain(w: World, k: Slack, id: OutboxId, code: Code, transport: Transport, now: real)
    requires Reachable(w, k) && Tight(k) && id in w.sent && w.pruned - k.back <= now
    ensures Reserve(w.t, code, id, transport, now).Failure?
  {
    ReachableKeepsInv(w, k);
    var j :| 0 <= j < |w.attempts| && w.attempts[j].id == id;
    ReservedOnce(w, k, j, code, transport, now);
  }

  function SentOf(sent: seq<OutboxId>, c: CampaignId): set<OutboxId> { set i | i in sent && i.campaign == c }

  /** A campaign pays for ten items in its whole life, prunes included. */
  lemma CampaignSendsAtMostTen(w: World, k: Slack, c: CampaignId)
    requires Reachable(w, k) && Tight(k)
    ensures |SentOf(w.sent, c)| <= MAX_CASES
  {
    ReachableKeepsInv(w, k);
    assert |IdsOf(w.attempts, c)| <= MAX_CASES;
    assert SentOf(w.sent, c) <= IdsOf(w.attempts, c);
    Sets.SubsetSize(SentOf(w.sent, c), IdsOf(w.attempts, c));
  }

  /** Every retained day holds exactly ten cents for each reservation made that day, and never over a dollar. */
  lemma BudgetIsConserved(w: World, k: Slack, day: int)
    requires Reachable(w, k) && k.back <= LEDGER_SECONDS
    ensures day >= Day(w.pruned - LEDGER_SECONDS) || day in w.t.budget ==>
              SpentOn(w.t, day) == RESERVE_CENTS * CountOn(w.attempts, day)
    ensures RESERVE_CENTS * CountOn(w.attempts, day) <= DAILY_CENTS
  {
    var es :| RunWithin(START, es, k) && w == Run(START, es);
    StartInv(k);
    RunKeepsDays(START, k, es);
    assert DayOk(w, day);
  }

  /**
   Pruning touches neither the day's budget nor a row, body included, that can still be sent, if together
   both kinds of slack stay within the six days a body outlives its campaign.
   */
  lemma PruneSparesWhatCanBeSent(w: World, k: Slack, id: OutboxId, now: real, later: real, t2: Tables)
    requires Reachable(w, k) && Tight(k) && k.early + k.back <= BODY_SECONDS - CAMPAIGN_SECONDS
    requires now - k.back <= later && ContinuousModel.Prune(w.t, now) == Success(t2)
    ensures SpentOn(t2, Day(now)) == SpentOn(w.t, Day(now))
    ensures id in w.t.outbox && Active(w.t, w.t.outbox[id].campaign, later) ==>
              && id in t2.outbox && t2.outbox[id] == w.t.outbox[id]
              && Active(t2, w.t.outbox[id].campaign, later)
  {
    ReachableKeepsInv(w, k);
    DayMonotone(now - LEDGER_SECONDS, now);
    if id in w.t.outbox && Active(w.t, w.t.outbox[id].campaign, later) {
      assert RowOk(w, id) && DatedOk(w, k, id) && CampaignOk(w, w.t.outbox[id].campaign);
      assert Used(t2.outbox, t2.outbox[id].campaign);
    }
  }

  /** After a restart nothing is left as being sent, and nothing that was is ready to be sent again. */
  lemma RestartParks(t: Tables, now: real, t2: Tables, id: OutboxId)
    requires Reconcile(t, now) == Success(t2)
    ensures id in t2.outbox <==> id in t.outbox
    ensures id in t2.outbox ==> !t2.outbox[id].state.Sending?
    ensures id in t2.outbox ==> (t2.outbox[id].state.Waiting? <==> t.outbox[id].state.Waiting?)
    ensures id in t2.outbox && !t.outbox[id].state.Sending? ==> t2.outbox[id] == t.outbox[id]
  {
  }

  // ---- money is spent only on what was approved, with any clock ----

  /** An approved campaign names its approver, and a live one still has the matching approval, given in its day. */
  predicate ApprovedOk(t: Tables, c: CampaignId)
    requires c in t.campaigns
  {
    var m := t.campaigns[c];
    m.state.Approved? ==>
      && m.actor.Some?
      && (m.binding.plan.mode.Live? ==>
            && ApprovedLive(t, c, m.binding) && t.approvals[c].actor == m.actor.value && t.approvals[c].at < m.expires)
  }

  predicate ApprovalsOk(w: World) {
    && (forall c {:trigger ApprovedOk(w.t, c)} :: c in w.t.campaigns ==> ApprovedOk(w.t, c))
    && (forall c :: c in w.t.approvals ==> c in w.used)
  }

  /** Steps that neither add, approve nor remove a campaign. */
  lemma SameApprovals(w: World, v: World)
    requires ApprovalsOk(w) && v.t.campaigns == w.t.campaigns && v.t.approvals == w.t.approvals && v.used == w.used
    ensures ApprovalsOk(v)
  {
    forall c | c in v.t.campaigns ensures ApprovedOk(v.t, c) {
      assert ApprovedOk(w.t, c);
    }
  }

  lemma PruneKeepsApprovals(w: World, now: real)
    requires ApprovalsOk(w)
    ensures ApprovalsOk(Step(w, Event.Prune(now)))
  {
    var v := Step(w, Event.Prune(now));
    forall c | c in v.t.campaigns ensures ApprovedOk(v.t, c) {
      assert ApprovedOk(w.t, c);
    }
  }

  lemma ApprovalKeepsApprovals(w: World, e: Event)
    requires ApprovalsOk(w) && CampaignsOk(w) && (e.Mock? || e.Live? || e.Halt?)
    ensures ApprovalsOk(Step(w, e))
  {
    var v := Step(w, e);
    forall c | c in v.t.campaigns ensures ApprovedOk(v.t, c) {
      assert ApprovedOk(w.t, c) && CampaignOk(w, c);
    }
    forall c | c in v.t.approvals ensures c in v.used {
      if c !in w.t.approvals { assert CampaignOk(w, c); }
    }
  }

  lemma PrepareKeepsApprovals(w: World, e: Event)
    requires ApprovalsOk(w) && e.Prepare? && Possible(w, e)
    ensures ApprovalsOk(Step(w, e))
  {
    var v := Step(w, e);
    forall c | c in v.t.campaigns ensures ApprovedOk(v.t, c) {
      if c in w.t.campaigns { assert ApprovedOk(w.t, c); }
    }
  }

  lemma StepKeepsApprovals(w: World, e: Event)
    requires ApprovalsOk(w) && CampaignsOk(w) && Possible(w, e)
    ensures ApprovalsOk(Step(w, e))
  {
    if e.Prepare? {
      PrepareKeepsApprovals(w, e);
    } else if e.Mock? || e.Live? || e.Halt? {
      ApprovalKeepsApprovals(w, e);
    } else if e.Prune? {
      PruneKeepsApprovals(w, e.now);
    } else {
      SameApprovals(w, Step(w, e));
    }
  }

  lemma {:induction false} RunKeepsApprovals(w: World, es: seq<Event>)
    requires Formed(w) && ApprovalsOk(w) && RunPossible(w, es)
    ensures Formed(Run(w, es)) && ApprovalsOk(Run(w, es))
    decreases |es|
  {
    if es != [] {
      StepKeepsFormed(w, es[0]);
      StepKeepsApprovals(w, es[0]);
      RunKeepsApprovals(Step(w, es[0]), es[1..]);
    }
  }

  /**
   Whatever is reserved belongs to a campaign that a named actor approved within its day, under exactly
   the terms it was prepared with; an approved live campaign never turns out to lack its approval.
   */
  lemma OnlyApprovedCampaignsPay(es: seq<Event>, code: Code, id: OutboxId, transport: Transport, now: real)
    requires RunPossible(START, es)
    ensures var w := Run(START, es);
            Reserve(w.t, code, id, transport, now) != Failure(ApprovalMissing)
            || (id in w.t.outbox && w.t.outbox[id].campaign in w.t.campaigns
                && w.t.campaigns[w.t.outbox[id].campaign].binding.plan.mode.Mock?)
    ensures var w := Run(START, es);
            Reserve(w.t, code, id, transport, now).Success? ==>
              && id in w.t.outbox && id.campaign in w.t.campaigns
              && var m := w.t.campaigns[id.campaign];
                 && m.state.Approved? && m.actor.Some? && m.created <= now < m.created + CAMPAIGN_SECONDS
                 && m.binding.plan.mode == transport.Kind()
                 && (transport.LiveTransport? ==>
                       && id.campaign in w.t.approvals && w.t.approvals[id.campaign].binding == m.binding
                       && w.t.approvals[id.campaign].actor == m.actor.value)
  {
    var w := Run(START, es);
    RunKeepsApprovals(START, es);
    if id in w.t.outbox {
      assert RowOk(w, id);
      assert ApprovedOk(w.t, w.t.outbox[id].campaign) && CampaignOk(w, w.t.outbox[id].campaign);
    }
  }
}
