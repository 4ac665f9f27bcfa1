/**
 Which alerts are investigated: exactly when a raw alert is taken in, set aside or refused, what is kept of it, and
 what taking it in does to the ledger and the queue.
 */
module AlertIntake {
  import opened Wrappers
  import opened JobQueue
  import opened JobQueueLaws
  import opened Alerts
  import opened AlertLaws
  import JobQueueLife
  import T = AlertTime

  // ---- one raw alert ----

  predicate Says(labels: Labels, key: string, value: string) { key in labels && labels[key] == value }

  /** The five labels that name a registered target, as the settings have it. */
  predicate Names(labels: Labels, target: Target) {
    && (target.cluster == if "cluster_id" in labels then labels["cluster_id"] else "")
    && (target.namespace == if "namespace" in labels then labels["namespace"] else "")
    && (target.workload == if "workload" in labels then labels["workload"] else "")
    && (target.service == if "service" in labels then labels["service"] else "")
    && (target.environment == if "environment" in labels then labels["environment"] else "")
  }

  /** Enabled, one of the five alerts, for a registered target of this sender, in registered dimensions only. */
  predicate InScope(s: Settings, labels: Labels) {
    && Says(labels, "ai_ops", "enabled")
    && (|| Says(labels, "alertname", "HighErrorRate") || Says(labels, "alertname", "CacheHitRateLow")
        || Says(labels, "alertname", "CacheOperationErrorHigh") || Says(labels, "alertname", "DBQueryLatencyHigh")
        || Says(labels, "alertname", "APIRequestLatencyHigh"))
    && exists target :: target in s.bindings && Names(labels, target) && target.cluster == s.cluster
                        && ("route" in labels ==> labels["route"] in s.bindings[target].routes)
                        && ("operation" in labels ==> labels["operation"] in s.bindings[target].operations)
  }

  lemma ScopeIsAdmissible(s: Settings, labels: Labels)
    ensures Admissible(s, labels) <==> InScope(s, labels)
  {
    assert Names(labels, TargetOf(labels));
    forall target | Names(labels, target) ensures target == TargetOf(labels) {}
  }

  /** Sixteen hexadecimal digits in lower case. */
  predicate Hexadecimal(f: string) {
    |f| == 16 && forall i :: 0 <= i < 16 ==> '0' <= f[i] <= '9' || 'a' <= f[i] <= 'f'
  }

  predicate Reads(text: string) { T.Normalize(text).Success? }

  /** Not before 1970, and at most five minutes ahead. */
  predicate StartOk(starts: T.Moment, now: real) { 0.0 <= starts.number <= now + 300.0 }

  /** Not before the start as text, and at most five minutes ahead. */
  predicate EndOk(starts: T.Moment, ends: T.Moment, now: real) {
    !T.Less(ends.key, starts.key) && ends.number <= now + 300.0
  }

  /** A firing alert may name an expected end, which must read; a resolved one must name its end. */
  predicate WellFormed(raw: RawAlert, firing: bool, now: real) {
    && Hexadecimal(raw.fingerprint) && Reads(raw.startsAt) && StartOk(T.Normalize(raw.startsAt).value, now)
    && (firing && raw.endsAt.Some? ==> Reads(raw.endsAt.value))
    && (!firing ==> && raw.endsAt.Some? && Reads(raw.endsAt.value)
                    && EndOk(T.Normalize(raw.startsAt).value, T.Normalize(raw.endsAt.value).value, now))
  }

  /** What is to be asked of the target. */
  predicate Asks(s: Settings, labels: Labels, item: Item)
    requires item.Item? && item.target in s.bindings
  {
    && item.payload.target == s.bindings[item.target].alias && item.payload.question == item.name
    && item.payload.configHash == s.configHash
    && item.payload.route == (if "route" in labels then Some(labels["route"]) else None)
    && item.payload.operation == (if "operation" in labels then Some(labels["operation"]) else None)
  }

  /** What is kept: who it is about, when it started and ended in UTC, and what is to be asked. */
  predicate KeptAs(s: Settings, raw: RawAlert, item: Item, starts: T.Moment, ends: Option<T.Moment>) {
    && item.Item? && item.key == AlertKey(s.cluster, raw.fingerprint, starts.key) && item.starts == starts.key
    && item.identity == raw.labels && Names(raw.labels, item.target) && Says(raw.labels, "alertname", item.name)
    && item.target in s.bindings && Asks(s, raw.labels, item)
    && (if ends.Some? then item.status.Resolved? && item.ends == Some(ends.value.key)
        else item.status.Firing? && item.ends == None)
  }

  lemma ItemIsKept(s: Settings, raw: RawAlert, starts: T.Moment, ends: Option<T.Moment>)
    requires Admissible(s, raw.labels)
    ensures KeptAs(s, raw, ItemOf(s, raw, starts, if ends.Some? then Some(ends.value.key) else None,
                                  if ends.Some? then Resolved else Firing), starts, ends)
  {
  }

  /** Of every raw alert: out of scope it is set aside; in scope it is kept if well formed, and refused if not. */
  lemma FiringPreparedExactly(s: Settings, raw: RawAlert, now: real)
    requires raw.status == "firing"
    ensures var r := Prepare(s, raw, now);
            if !InScope(s, raw.labels) then r == Success(Rejected)
            else if WellFormed(raw, true, now) then
              r.Success? && KeptAs(s, raw, r.value, T.Normalize(raw.startsAt).value, None)
            else r == Failure(Malformed)
  {
    ScopeIsAdmissible(s, raw.labels);
    FiringUnfolds(s, raw, now);
    if Reads(raw.startsAt) && Admissible(s, raw.labels) { ItemIsKept(s, raw, T.Normalize(raw.startsAt).value, None); }
  }

  lemma FiringUnfolds(s: Settings, raw: RawAlert, now: real)
    requires raw.status == "firing"
    ensures Prepare(s, raw, now)
            == if !Admissible(s, raw.labels) then Success(Rejected)
               else if WellFormed(raw, true, now)
               then Success(ItemOf(s, raw, T.Normalize(raw.startsAt).value, None, Firing))
               else Failure(Malformed)
  {
    assert Hexadecimal(raw.fingerprint) <==> IsHex16(raw.fingerprint);
  }

  /** The end of a resolved alert, against its start. */
  predicate Ended(raw: RawAlert, starts: T.Moment, now: real) {
    raw.endsAt.Some? && Reads(raw.endsAt.value) && EndOk(starts, T.Normalize(raw.endsAt.value).value, now)
  }

  lemma EndingPreparedExactly(s: Settings, raw: RawAlert, starts: T.Moment, now: real)
    requires Admissible(s, raw.labels)
    ensures var r := PrepareEnding(s, raw, starts, now);
            if Ended(raw, starts, now)
            then r.Success? && KeptAs(s, raw, r.value, starts, Some(T.Normalize(raw.endsAt.value).value))
            else r == Failure(Malformed)
  {
    EndUnfolds(s, raw, starts, now);
    if Ended(raw, starts, now) { ItemIsKept(s, raw, starts, Some(T.Normalize(raw.endsAt.value).value)); }
  }

  lemma EndUnfolds(s: Settings, raw: RawAlert, starts: T.Moment, now: real)
    requires Admissible(s, raw.labels)
    ensures PrepareEnding(s, raw, starts, now)
            == if Ended(raw, starts, now)
               then Success(ItemOf(s, raw, starts, Some(T.Normalize(raw.endsAt.value).value.key), Resolved))
               else Failure(Malformed)
  {
  }

  /** After the start was read, only the end decides. */
  lemma EndDecides(s: Settings, raw: RawAlert, starts: T.Moment, now: real)
    requires raw.status == "resolved" && Admissible(s, raw.labels) && IsHex16(raw.fingerprint)
    requires T.Normalize(raw.startsAt) == Success(starts)
    ensures Prepare(s, raw, now) == if StartOk(starts, now) then PrepareEnding(s, raw, starts, now)
            else Failure(Malformed)
  {
  }

  lemma UnreadableIsRefused(s: Settings, raw: RawAlert, now: real)
    requires raw.status == "resolved" && Admissible(s, raw.labels) && !(IsHex16(raw.fingerprint) && Reads(raw.startsAt))
    ensures Prepare(s, raw, now) == Failure(Malformed)
  {
  }

  lemma OutOfScopeIsSetAside(s: Settings, raw: RawAlert, now: real)
    requires raw.status == "resolved" && !Admissible(s, raw.labels)
    ensures Prepare(s, raw, now) == Success(Rejected)
  {
  }

  lemma ResolvedPreparedExactly(s: Settings, raw: RawAlert, now: real)
    requires raw.status == "resolved"
    ensures var r := Prepare(s, raw, now);
            if !InScope(s, raw.labels) then r == Success(Rejected)
            else if WellFormed(raw, false, now) then
              && r.Success?
              && KeptAs(s, raw, r.value, T.Normalize(raw.startsAt).value, Some(T.Normalize(raw.endsAt.value).value))
            else r == Failure(Malformed)
  {
    ScopeIsAdmissible(s, raw.labels);
    assert Hexadecimal(raw.fingerprint) <==> IsHex16(raw.fingerprint);
    if !Admissible(s, raw.labels) {
      OutOfScopeIsSetAside(s, raw, now);
    } else if IsHex16(raw.fingerprint) && Reads(raw.startsAt) {
      EndDecides(s, raw, T.Normalize(raw.startsAt).value, now);
      EndingPreparedExactly(s, raw, T.Normalize(raw.startsAt).value, now);
    } else {
      UnreadableIsRefused(s, raw, now);
    }
  }

  lemma OtherStatusIsRefused(s: Settings, raw: RawAlert, now: real)
    requires raw.status != "firing" && raw.status != "resolved"
    ensures Prepare(s, raw, now) == Failure(Malformed)
  {
  }

  // ---- one item ----

  /** The same key stands for another alert. */
  predicate Clashes(alerts: map<EpisodeKey, Row>, item: Item)
    requires item.Item?
  {
    item.key in alerts && !(alerts[item.key].identity == item.identity && alerts[item.key].target == item.target)
  }

  predicate LaterText(a: Option<string>, b: string, r: string) {
    if a == None || a == Some("") then r == b else (r == a.value || r == b) && !T.Less(r, a.value) && !T.Less(r, b)
  }

  lemma LaterIsLater(a: string, b: string)
    ensures a != "" ==> LaterText(Some(a), b, Later(Some(a), b))
  {
    T.LessIsTotal(a, b);
    T.LessIsTotal(a, a);
    T.LessIsTotal(b, b);
  }

  /** A row of the ledger as an alert leaves it. */
  predicate NewRow(item: Item, row: Row, job: Option<JobId>, now: real)
    requires item.Item?
  {
    row == Row(item.identity, item.target, item.name, item.starts, item.ends, item.status, job, now, now)
  }

  /** The episode has ended, at the later of the two ends, and is otherwise as it was. */
  predicate EndedAs(was: Row, row: Row, item: Item, now: real)
    requires item.Ends() && item.ends.Some?
  {
    && row.status.Resolved? && row.updated == now && row.ends.Some?
       && LaterText(was.ends, item.ends.value, row.ends.value)
    && row == was.(status := row.status, ends := row.ends, updated := row.updated)
  }

  /** The ledger changes in one row, one count grows, and the queue is as given. */
  ghost predicate OneRow(b: Inbox, u: Inbox, key: EpisodeKey) {
    key in u.alerts && u.alerts == b.alerts[key := u.alerts[key]]
  }

  ghost predicate Accepts(b: Inbox, item: Item, now: real, uuid: JobId, u: Inbox)
    requires Inv(b.queue) && KeysUnique(b.queue.jobs) && (item.Ends() ==> item.ends.Some?)
  {
    var c := b.counts;
    if item.Rejected? then u == b.(counts := c.(rejected := c.rejected + 1))
    else if item.Ends() then
      && u.queue == b.queue && u.counts == c.(resolved := c.resolved + 1) && OneRow(b, u, item.key)
      && if item.key in b.alerts then EndedAs(b.alerts[item.key], u.alerts[item.key], item, now)
         else NewRow(item, u.alerts[item.key], None, now)
    else if item.key in b.alerts then
      && u.queue == b.queue && u.alerts == b.alerts
      && u.counts == if b.alerts[item.key].status.Resolved? then c.(suppressed := c.suppressed + 1)
                     else c.(duplicate := c.duplicate + 1)
    else
      var r := Submit(b.queue, item.key, AlertPrint(item.payload), item.payload, now, uuid);
      && r.Success? && u.queue == r.value.0 && u.counts == c.(accepted := c.accepted + 1) && OneRow(b, u, item.key)
      && NewRow(item, u.alerts[item.key], Some(r.value.1), now)
  }

  /** Everything that may stand in the way of an item. */
  ghost predicate Blocked(b: Inbox, item: Item, now: real, uuid: JobId)
    requires Inv(b.queue) && KeysUnique(b.queue.jobs)
  {
    item.Item? &&
    (|| Clashes(b.alerts, item) || (item.key !in b.alerts && |b.alerts| >= 10000)
     || (item.key !in b.alerts && item.Fires()
         && Submit(b.queue, item.key, AlertPrint(item.payload), item.payload, now, uuid).Failure?))
  }

  /** An item is taken in exactly unless something stands in the way, and then it does just what its kind says. */
  lemma AcceptedExactly(b: Inbox, item: Item, now: real, uuid: JobId)
    requires Inv(b.queue) && KeysUnique(b.queue.jobs) && (item.Ends() ==> item.ends.Some?)
    ensures var r := AcceptItem(b, item, now, uuid);
            && (r.Failure? <==> Blocked(b, item, now, uuid))
            && (r.Success? ==> Accepts(b, item, now, uuid, r.value))
            && (item.Item? && Clashes(b.alerts, item) ==> r == Failure(IdentityConflict))
  {
    if item.Ends() && item.key in b.alerts && b.alerts[item.key].ends.Some? {
      LaterIsLater(b.alerts[item.key].ends.value, item.ends.value);
    }
  }
}
