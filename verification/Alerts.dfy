/**
 Alert acceptance (ai-ops/src/ai_ops/alerts.py): a delivery is validated, sorted so that resolved
 alerts come first, and committed in one transaction together with the jobs it starts.
 */
module Alerts {
  import opened Wrappers
  import opened JobQueue
  import opened JobQueueLaws
  import T = AlertTime

  const MAX_ALERTS := 32
  const MAX_ALERT_EPISODES := 10000
  const FUTURE_SECONDS: real := 300.0
  const ALERT_NAMES: set<string> := {"HighErrorRate", "CacheHitRateLow", "CacheOperationErrorHigh",
                                     "DBQueryLatencyHigh", "APIRequestLatencyHigh"}

  type Labels = map<string, string>

  datatype Target = Target(cluster: string, namespace: string, workload: string, service: string, environment: string)
  datatype Binding = Binding(alias: string, routes: set<string>, operations: set<string>)
  datatype Settings = Settings(bindings: map<Target, Binding>, configHash: string, cluster: string)

  datatype RawAlert = RawAlert(status: string, labels: Labels, fingerprint: string,
                               startsAt: string, endsAt: Option<string>)

  datatype Status = Firing | Resolved

  // The HMAC over the labels is injective, so the identity is kept as the labels.
  datatype Item =
    | Rejected
    | Item(key: EpisodeKey, identity: Labels, target: Target, name: string, starts: string,
           ends: Option<string>, status: Status, payload: Payload)
  {
    predicate Ends() { Item? && status.Resolved? }
    predicate Fires() { Item? && status.Firing? }
  }

  datatype Row = Row(identity: Labels, target: Target, name: string, starts: string, ends: Option<string>,
                     status: Status, job: Option<JobId>, received: real, updated: real)

  datatype Counts = Counts(accepted: nat, duplicate: nat, resolved: nat, suppressed: nat, rejected: nat)
  {
    function Sum(): nat { accepted + duplicate + resolved + suppressed + rejected }
  }

  datatype Inbox = Inbox(queue: Tables, alerts: map<EpisodeKey, Row>, counts: Counts)

  datatype AlertError = Malformed | IdentityConflict | LedgerFull | Queue(error: Error)

  const NONE := Counts(0, 0, 0, 0, 0)

  // ---------------------------------------------------------------- preparation

  function Get(labels: Labels, key: string): string {
    if key in labels then labels[key] else ""
  }

  function TargetOf(labels: Labels): Target {
    Target(Get(labels, "cluster_id"), Get(labels, "namespace"), Get(labels, "workload"),
           Get(labels, "service"), Get(labels, "environment"))
  }

  function Lookup(labels: Labels, key: string): Option<string> {
    if key in labels then Some(labels[key]) else None
  }

  predicate Admissible(s: Settings, labels: Labels) {
    && Lookup(labels, "ai_ops") == Some("enabled") && Get(labels, "alertname") in ALERT_NAMES
    && TargetOf(labels) in s.bindings && TargetOf(labels).cluster == s.cluster
    && ("route" in labels ==> labels["route"] in s.bindings[TargetOf(labels)].routes)
    && ("operation" in labels ==> labels["operation"] in s.bindings[TargetOf(labels)].operations)
  }

  function PayloadOf(s: Settings, labels: Labels): Payload
    requires Admissible(s, labels)
  {
    Payload(s.bindings[TargetOf(labels)].alias, Get(labels, "alertname"), s.configHash,
            Lookup(labels, "route"), Lookup(labels, "operation"))
  }

  predicate IsHex16(f: string) {
    |f| == 16 && forall i :: 0 <= i < 16 ==> T.IsDigit(f[i]) || 'a' <= f[i] <= 'f'
  }

  function Prepare(s: Settings, raw: RawAlert, now: real): (r: Result<Item, AlertError>)
    ensures r.Success? ==> FromLabels(s, r.value)
  {
    if raw.status != "firing" && raw.status != "resolved" then Failure(Malformed)
    else if !Admissible(s, raw.labels) then Success(Rejected)
    else if !IsHex16(raw.fingerprint) then Failure(Malformed)
    else
      match T.Normalize(raw.startsAt)
      case Failure(_) => Failure(Malformed)
      case Success(starts) =>
        if starts.number < 0.0 || starts.number > now + FUTURE_SECONDS then Failure(Malformed)
        else if raw.status == "firing" then
          if raw.endsAt.Some? && T.Normalize(raw.endsAt.value).Failure? then Failure(Malformed)
          else Success(ItemOf(s, raw, starts, None, Firing))
        else PrepareEnding(s, raw, starts, now)
  }

  function PrepareEnding(s: Settings, raw: RawAlert, starts: T.Moment, now: real): (r: Result<Item, AlertError>)
    requires Admissible(s, raw.labels)
    ensures r.Success? ==> FromLabels(s, r.value)
  {
    if raw.endsAt.None? then Failure(Malformed)
    else
      match T.Normalize(raw.endsAt.value)
      case Failure(_) => Failure(Malformed)
      case Success(ends) =>
        if EndsWrong(starts, ends, now) then Failure(Malformed)
        else Success(ItemOf(s, raw, starts, Some(ends.key), Resolved))
  }

  /** An end before the start, as texts compare, or too far ahead. */
  predicate EndsWrong(starts: T.Moment, ends: T.Moment, now: real) {
    T.Less(ends.key, starts.key) || ends.number > now + FUTURE_SECONDS
  }

  function ItemOf(s: Settings, raw: RawAlert, starts: T.Moment, ends: Option<string>, status: Status): Item
    requires Admissible(s, raw.labels)
  {
    Item(AlertKey(s.cluster, raw.fingerprint, starts.key), raw.labels, TargetOf(raw.labels),
         Get(raw.labels, "alertname"), starts.key, ends, status, PayloadOf(s, raw.labels))
  }

  /** A prepared item is a function of its key, its labels, its status and its end. */
  predicate FromLabels(s: Settings, item: Item) {
    item.Item? ==>
      && item.key.AlertKey? && item.starts == item.key.startsAt
      && Admissible(s, item.identity)
      && item.target == TargetOf(item.identity) && item.name == Get(item.identity, "alertname")
      && item.payload == PayloadOf(s, item.identity)
      && (item.ends.Some? <==> item.status.Resolved?)
      && (item.ends.Some? ==> item.ends.value != "")
  }

  // ---------------------------------------------------------------- the transaction

  /** max over the ends known so far */
  function Later(known: Option<string>, end: string): string {
    if known.Some? && known.value != "" && T.Less(end, known.value) then known.value else end
  }

  function AcceptItem(b: Inbox, item: Item, now: real, uuid: JobId): (r: Result<Inbox, AlertError>)
    requires KeysUnique(b.queue.jobs)
    requires item.Ends() ==> item.ends.Some?
  {
    var c := b.counts;
    if item.Rejected? then Success(b.(counts := c.(rejected := c.rejected + 1)))
    else if item.key in b.alerts
         && (b.alerts[item.key].identity != item.identity || b.alerts[item.key].target != item.target)
    then Failure(IdentityConflict)
    else if item.key !in b.alerts && |b.alerts| >= MAX_ALERT_EPISODES then Failure(LedgerFull)
    else if item.status.Resolved? then
      Success(b.(alerts := b.alerts[item.key := EndedRow(b.alerts, item, now)],
                 counts := c.(resolved := c.resolved + 1)))
    else if item.key in b.alerts then
      if b.alerts[item.key].status.Resolved? then Success(b.(counts := c.(suppressed := c.suppressed + 1)))
      else Success(b.(counts := c.(duplicate := c.duplicate + 1)))
    else StartJob(b, item, now, uuid)
  }

  /** A resolved alert ends its episode, or records one that ended before it was seen to fire. */
  function EndedRow(alerts: map<EpisodeKey, Row>, item: Item, now: real): Row
    requires item.Ends() && item.ends.Some?
  {
    if item.key in alerts
    then alerts[item.key].(status := Resolved, updated := now,
                           ends := Some(Later(alerts[item.key].ends, item.ends.value)))
    else RowOf(item, None, now)
  }

  function StartJob(b: Inbox, item: Item, now: real, uuid: JobId): (r: Result<Inbox, AlertError>)
    requires KeysUnique(b.queue.jobs) && item.Fires()
  {
    match Submit(b.queue, item.key, AlertPrint(item.payload), item.payload, now, uuid)
    case Failure(e) => Failure(Queue(e))
    case Success((queue, job, _)) =>
      Success(Inbox(queue, b.alerts[item.key := RowOf(item, Some(job), now)],
                    b.counts.(accepted := b.counts.accepted + 1)))
  }

  function RowOf(item: Item, job: Option<JobId>, now: real): Row
    requires item.Item?
  {
    Row(item.identity, item.target, item.name, item.starts, item.ends, item.status, job, now, now)
  }

  function OnlyEnding(items: seq<Item>): (r: seq<Item>)
    ensures forall x :: x in r ==> x in items && x.Ends()
    ensures |r| <= |items|
  {
    if items == [] then []
    else (if items[0].Ends() then [items[0]] else []) + OnlyEnding(items[1..])
  }

  function WithoutEnding(items: seq<Item>): (r: seq<Item>)
    ensures forall x :: x in r ==> x in items && !x.Ends()
    ensures |r| <= |items|
  {
    if items == [] then []
    else (if items[0].Ends() then [] else [items[0]]) + WithoutEnding(items[1..])
  }

  /** The stable sort on `status != 'resolved'`. */
  function ResolvedFirst(items: seq<Item>): seq<Item> { OnlyEnding(items) + WithoutEnding(items) }

  ghost predicate AllFromLabels(s: Settings, items: seq<Item>) {
    forall x :: x in items ==> FromLabels(s, x)
  }

  lemma AcceptItemKeepsInv(b: Inbox, item: Item, now: real, uuid: JobId)
    requires Inv(b.queue) && KeysUnique(b.queue.jobs) && (item.Ends() ==> item.ends.Some?)
    ensures var r := AcceptItem(b, item, now, uuid); r.Success? ==> Inv(r.value.queue)
  {
    if item.Item? { SubmitKeepsInv(b.queue, item.key, AlertPrint(item.payload), item.payload, now, uuid); }
  }

  /** The loop over the sorted items; the i-th fresh id serves the i-th item if it starts a job. */
  function AcceptAll(s: Settings, b: Inbox, items: seq<Item>, now: real, uuids: seq<JobId>)
    : (r: Result<Inbox, AlertError>)
    requires Inv(b.queue) && AllFromLabels(s, items) && |uuids| == |items|
    ensures r.Success? ==> Inv(r.value.queue)
    decreases |items|
  {
    if items == [] then Success(b)
    else
      InvHasUniqueKeys(b.queue);
      assert FromLabels(s, items[0]);
      AcceptItemKeepsInv(b, items[0], now, uuids[0]);
      match AcceptItem(b, items[0], now, uuids[0])
      case Failure(e) => Failure(e)
      case Success(next) => AcceptAll(s, next, items[1..], now, uuids[1..])
  }

  function PrepareAll(s: Settings, raws: seq<RawAlert>, now: real): (r: Result<seq<Item>, AlertError>)
    ensures r.Success? ==> |r.value| == |raws| && AllFromLabels(s, r.value)
  {
    if raws == [] then Success([])
    else
      match Prepare(s, raws[0], now)
      case Failure(e) => Failure(e)
      case Success(first) =>
        match PrepareAll(s, raws[1..], now)
        case Failure(e) => Failure(e)
        case Success(rest) => Success([first] + rest)
  }
}