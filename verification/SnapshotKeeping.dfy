/**
 What a collection keeps: exactly which candidates are added, which of them keep their payload and why others do
 not, what the budgets promise over a whole collection, and what freezing makes of it.
 */
module SnapshotKeeping {
  import opened Wrappers
  import opened Evidence
  import opened Captured
  import opened Snapshot
  import opened SnapshotLaws

  // ---- which candidates are added ----

  /** The times a kind of evidence has. */
  function TimesOf(kind: Kind): set<TimeField> {
    if kind == Event then {EventTime, LastTimestamp}
    else if kind == Log then {LogTimestamp}
    else if kind == Metric then {EvaluationTime}
    else if kind == Kind.Deployment then {ResponseReceivedAt, ArtifactObservedAt, StatusReconciledAt, HistoryDeployedAt}
    else {ResponseReceivedAt}
  }

  /** In scope, new, with a time of its kind, and while there is room and the clock is not behind the start. */
  predicate Admitted(env: Env, s: Settings, b: Builder, q: Source, now: int) {
    && !b.closed && q.target == s.target && q.timeField in TimesOf(q.kind) && env.safe(q.ref)
    && |b.items| < s.maxItems && (forall i :: 0 <= i < |b.items| ==> b.items[i].id != q.id)
    && b.started <= now && InRange(b.started - s.lookback)
  }

  lemma AddedExactly(env: Env, s: Settings, b: Builder, x: Candidate)
    ensures Add(env, s, b, x.q, x.observedAt, x.payload, x.failed, x.dimension, x.now, x.late).Success? <==>
              && Admitted(env, s, b, x.q, x.now)
              && (!x.late && x.failed.None? && Timestamped(env.codec, x.observedAt) ==>
                    InRange(env.codec.parse(x.observedAt.value).value.at))
  {
  }

  // ---- which keep their payload ----

  /** The time of the observation, if it can be read. */
  predicate Timestamped(c: Codec, observedAt: Option<string>) {
    observedAt.Some? && |observedAt.value| <= 64 && c.parse(observedAt.value).Some?
  }

  function SizeOf(env: Env, payload: Option<Payload>): nat {
    env.size(match payload case None => Null case Some(p) => Object(p))
  }

  /** A log that is no larger than a response is charged to the log budget if it fits there, kept or not. */
  predicate Charged(env: Env, s: Settings, b: Builder, x: Candidate) {
    && x.q.kind == Log && SizeOf(env, x.payload) <= s.responseBytes
       && b.logBytes + SizeOf(env, x.payload) <= s.rawLogBytes
  }

  predicate ManyLines(s: Settings, p: Payload) {
    "lines" in p && p["lines"].List? && |p["lines"].items| > s.linesPerPod
  }

  /** A metric counts for the start of the snapshot only, and so do all its samples. */
  predicate AtTheStart(c: Codec, n: Payload, at: int, started: int) {
    && at == started && "samples" in n && n["samples"].List?
    && forall i :: 0 <= i < |n["samples"].items| ==>
         && n["samples"].items[i].Object? && "at" in n["samples"].items[i].fields
         && n["samples"].items[i].fields["at"] == Text(c.text(at))
  }

  /** What is stored of a payload: its normal form with the times as they were written. */
  function WithTimes(env: Env, n: Payload, x: Candidate): Payload
    requires Timestamped(env.codec, x.observedAt)
  {
    n["source_time" := SourceTime(env.codec, x.observedAt.value, env.codec.parse(x.observedAt.value).value.offset,
                                  x.now,
                                  x.q.timeField)]
  }

  datatype Verdict = Verdict(status: Status, reason: string)

  /** The first thing that is wrong with its time, or nothing. */
  function TimeVerdict(env: Env, s: Settings, b: Builder, x: Candidate): Verdict {
    if x.late then Verdict(Missing, "deadline_exceeded")
    else if x.failed.Some? then Verdict(x.failed.value.status, x.failed.value.reason)
    else if !Timestamped(env.codec, x.observedAt) then Verdict(InvalidData, "invalid_time")
    else
      var at := env.codec.parse(x.observedAt.value).value.at;
      if at > x.now then Verdict(InvalidData, "future_observation")
      else if at < b.started - s.lookback then Verdict(Stale, "outside_window")
      else Verdict(Available, "collected")
  }

  /** The first thing that is wrong with its payload, once its time is good. */
  function PayloadVerdict(env: Env, s: Settings, b: Builder, x: Candidate): Verdict
    requires Timestamped(env.codec, x.observedAt)
  {
    var at := env.codec.parse(x.observedAt.value).value.at;
    if SizeOf(env, x.payload) > s.responseBytes then Verdict(InvalidData, "response_too_large")
    else if x.q.kind == Log && !Charged(env, s, b, x) then Verdict(InvalidData, "log_budget_exceeded")
    else if x.payload.None? || (x.q.kind == Log && ManyLines(s, x.payload.value))
    then Verdict(InvalidData, "invalid_payload")
    else
      match env.normal(x.q.kind, x.payload.value, Window(b.started - s.lookback, x.now))
      case Failure(e) =>
        if e == NoDiagnosticFields then Verdict(Missing, "no_diagnostic_fields")
        else Verdict(InvalidData, "invalid_payload")
      case Success(n) =>
        if x.q.kind == Metric && !AtTheStart(env.codec, n, at, b.started) then Verdict(InvalidData, "invalid_payload")
        else if env.size(Object(WithTimes(env, n, x))) > s.payloadBytes then Verdict(InvalidData, "payload_too_large")
        else Verdict(Available, "collected")
  }

  function FullVerdict(env: Env, s: Settings, b: Builder, x: Candidate): Verdict {
    if TimeVerdict(env, s, b, x).status == Available && x.failed.None? && !x.late
    then PayloadVerdict(env, s, b, x) else TimeVerdict(env, s, b, x)
  }

  /** The item and the audit entry say the same of it. */
  predicate Recorded(x: Candidate, v: Verdict, item: Item, e: Entry) {
    && (item.id, item.kind, item.ref, item.target, item.collected) == (x.q.id, x.q.kind, x.q.ref, x.q.target, x.now)
    && (e.id, e.timeField, e.collected, e.dimension) == (x.q.id, x.q.timeField, x.now, x.dimension)
    && item.status == v.status && e.status == v.status && e.reason == v.reason
    && item.missing == (if v.status == Available then None else Some(v.reason))
  }

  /** The payload is kept in its normal form, with its times, exactly if nothing is wrong. */
  ghost predicate KeptAs(env: Env, s: Settings, b: Builder, x: Candidate, v: Verdict, item: Item) {
    if v.status != Available then item.payload.None?
    else
      && Timestamped(env.codec, x.observedAt) && x.payload.Some?
      && item.observed == Some(env.codec.parse(x.observedAt.value).value.at)
      && var n := env.normal(x.q.kind, x.payload.value, Window(b.started - s.lookback, x.now));
         n.Success? && item.payload == Some(WithTimes(env, n.value, x))
  }

  /** The raw time is kept for the audit, and whether it was only a little ahead. */
  predicate TimeKept(env: Env, s: Settings, x: Candidate, e: Entry) {
    if x.late || x.failed.Some? || !Timestamped(env.codec, x.observedAt)
    then e.raw == None && e.offset == None && !e.tolerated
    else
      var t := env.codec.parse(x.observedAt.value).value;
      e.raw == x.observedAt && e.offset == Some(t.offset) && (e.tolerated <==> x.now < t.at <= x.now + s.tolerance)
  }

  lemma TimeIsLookedAt(env: Env, s: Settings, b: Builder, x: Candidate)
    ensures var t := Looked(env.codec, s, x.observedAt, x.failed, Window(b.started - s.lookback, x.now), x.late);
            && t.status == TimeVerdict(env, s, b, x).status && t.reason == TimeVerdict(env, s, b, x).reason
            && (t.observed.Some? && t.raw.Some? && t.offset.Some?
                <==> t.status == Available && !x.late && x.failed.None?)
            && (t.observed.Some? ==>
                  Timestamped(env.codec, x.observedAt) && t.raw == x.observedAt
                  && t.offset == Some(env.codec.parse(x.observedAt.value).value.offset)
                  && t.observed == Some(env.codec.parse(x.observedAt.value).value.at))
  {
  }

  lemma PayloadIsKept(env: Env, s: Settings, b: Builder, x: Candidate, t: Timed)
    requires Timestamped(env.codec, x.observedAt) && t.raw == x.observedAt
    requires t.offset == Some(env.codec.parse(x.observedAt.value).value.offset)
    requires t.observed == Some(env.codec.parse(x.observedAt.value).value.at)
    ensures var k := Keep(env, s, b, x.q.kind, x.payload, Snapshot.NormalForm(env, s, b, x.q.kind, x.payload, x.now), t,
                          x.q.timeField, x.now);
            && (k.status, k.reason) == (PayloadVerdict(env, s, b, x).status, PayloadVerdict(env, s, b, x).reason)
            && k.logBytes == b.logBytes + (if Charged(env, s, b, x) then SizeOf(env, x.payload) else 0)
            && (k.status == Available <==> k.payload.Some?)
            && (k.payload.Some? ==>
                  && x.payload.Some?
                  && var n := env.normal(x.q.kind, x.payload.value, Window(b.started - s.lookback, x.now));
                     n.Success? && k.payload == Some(WithTimes(env, n.value, x)))
  {
  }

  /** Its time is good, so that its payload is looked at. */
  predicate Observed(env: Env, s: Settings, b: Builder, x: Candidate) {
    !x.late && x.failed.None? && TimeVerdict(env, s, b, x).status == Available
  }

  /**
   What adding a candidate appends: an item and its audit entry with the first thing that is wrong, the payload in
   its normal form exactly if nothing is, and the log budget charged for every log that was looked at.
   */
  lemma KeptExactly(env: Env, s: Settings, b: Builder, x: Candidate)
    requires FailureOk(x.failed)
    ensures var r := Add(env, s, b, x.q, x.observedAt, x.payload, x.failed, x.dimension, x.now, x.late);
            var v := FullVerdict(env, s, b, x); var n := |b.items|;
            r.Success? ==>
              && |r.value.items| == n + 1 && r.value.items[..n] == b.items
              && |r.value.entries| == |b.entries| + 1 && r.value.entries[..|b.entries|] == b.entries
              && Recorded(x, v, r.value.items[n], r.value.entries[|b.entries|])
              && KeptAs(env, s, b, x, v, r.value.items[n]) && TimeKept(env, s, x, r.value.entries[|b.entries|])
              && r.value.logBytes == b.logBytes + (if Observed(env, s, b, x) && Charged(env, s, b, x)
                                                   then SizeOf(env, x.payload) else 0)
              && r.value.started == b.started && r.value.closed == b.closed
  {
    var t := Looked(env.codec, s, x.observedAt, x.failed, Window(b.started - s.lookback, x.now), x.late);
    TimeIsLookedAt(env, s, b, x);
    if t.observed.Some? { PayloadIsKept(env, s, b, x, t); }
    MadeOf(env, s, b, x, t);
  }

  /** What is recorded once time and payload were looked at. */
  lemma MadeOf(env: Env, s: Settings, b: Builder, x: Candidate, t: Timed)
    requires t == Looked(env.codec, s, x.observedAt, x.failed, Window(b.started - s.lookback, x.now), x.late)
    ensures var n := Snapshot.NormalForm(env, s, b, x.q.kind, x.payload, x.now);
            var k := Settled(env, s, b, x.q.kind, x.payload, n, t, x.q.timeField, x.now);
            var m := Made(env, s, b, x.q, x.observedAt, x.payload, n, x.failed, x.dimension, x.now, x.late);
            && Recorded(x, Verdict(k.status, k.reason), m.0, m.1) && m.2 == k.logBytes
            && m.0.payload == k.payload && m.0.observed == t.observed
            && m.1.raw == t.raw && m.1.offset == t.offset && m.1.tolerated == t.tolerated
  {
  }

  // ---- the budgets of a collection ----

  /** No more items than allowed, each once and with its entry, logs within their budget, and no payload too large. */
  predicate InBudget(env: Env, s: Settings, b: Builder) {
    && |b.entries| == |b.items| <= s.maxItems && b.logBytes <= s.rawLogBytes
    && (forall i, j :: 0 <= i < j < |b.items| ==> b.items[i].id != b.items[j].id)
    && (forall i :: 0 <= i < |b.items| ==> b.entries[i].id == b.items[i].id)
    && (forall i :: 0 <= i < |b.items| && b.items[i].payload.Some? ==>
          b.items[i].status == Available && env.size(Object(b.items[i].payload.value)) <= s.payloadBytes)
  }

  lemma AddKeepsBudget(env: Env, s: Settings, b: Builder, x: Candidate)
    requires InBudget(env, s, b) && FailureOk(x.failed)
    ensures var r := Add(env, s, b, x.q, x.observedAt, x.payload, x.failed, x.dimension, x.now, x.late);
            r.Success? ==> InBudget(env, s, r.value)
  {
    var r := Add(env, s, b, x.q, x.observedAt, x.payload, x.failed, x.dimension, x.now, x.late);
    if r.Success? {
      KeptExactly(env, s, b, x);
      AddedExactly(env, s, b, x);
      var u, n := r.value, |b.items|;
      forall i | 0 <= i < |u.items| ensures u.entries[i].id == u.items[i].id {
        if i < n { assert u.items[i] == b.items[i] && u.entries[i] == b.entries[i]; }
      }
      forall i, j | 0 <= i < j < |u.items| ensures u.items[i].id != u.items[j].id {
        assert u.items[i] == b.items[i];
        if j < n { assert u.items[j] == b.items[j]; }
      }
      forall i | 0 <= i < |u.items| && u.items[i].payload.Some?
        ensures u.items[i].status == Available && env.size(Object(u.items[i].payload.value)) <= s.payloadBytes {
        if i < n { assert u.items[i] == b.items[i]; }
      }
    }
  }

  /** Over any candidates, whatever their times and sizes. */
  lemma {:induction false} CollectionStaysInBudget(env: Env, s: Settings, b: Builder, xs: seq<Candidate>)
    requires InBudget(env, s, b) && forall x :: x in xs ==> FailureOk(x.failed)
    ensures InBudget(env, s, AddAll(env, s, b, xs))
    decreases |xs|
  {
    if xs != [] {
      var x := xs[0];
      AddKeepsBudget(env, s, b, x);
      var r := Add(env, s, b, x.q, x.observedAt, x.payload, x.failed, x.dimension, x.now, x.late);
      CollectionStaysInBudget(env, s, if r.Success? then r.value else b, xs[1..]);
    }
  }

  // ---- freezing ----

  predicate AllAvailable(items: seq<Item>) { forall i :: 0 <= i < |items| ==> items[i].status == Available }

  predicate NoneAvailable(items: seq<Item>) { forall i :: 0 <= i < |items| ==> items[i].status != Available }

  lemma {:induction false} CountTells(items: seq<Item>)
    ensures 0 <= CountAvailable(items) <= |items|
    ensures CountAvailable(items) == |items| <==> AllAvailable(items)
    ensures CountAvailable(items) == 0 <==> NoneAvailable(items)
    decreases |items|
  {
    if items != [] {
      var n := |items| - 1;
      CountTells(items[..n]);
      assert forall i :: 0 <= i < n ==> items[..n][i] == items[i];
      if AllAvailable(items[..n]) && items[n].status == Available {
        forall i | 0 <= i < |items| ensures items[i].status == Available {
          if i < n { assert items[..n][i].status == Available; }
        }
      }
      if NoneAvailable(items[..n]) && items[n].status != Available {
        forall i | 0 <= i < |items| ensures items[i].status != Available {
          if i < n { assert items[..n][i].status != Available; }
        }
      }
      if AllAvailable(items) { assert forall i :: 0 <= i < n ==> items[..n][i].status == Available; }
      if NoneAvailable(items) { assert forall i :: 0 <= i < n ==> items[..n][i].status != Available; }
    }
  }

  /** The items as they were added, seen in the one window of the snapshot. */
  predicate SameItems(items: seq<Item>, evidence: seq<Item>, w: Window) {
    && |evidence| == |items|
    && forall i :: 0 <= i < |items| ==>
         evidence[i] == items[i].(window := evidence[i].window) && evidence[i].window == w
  }

  /**
   A collection is frozen exactly if it is open, not empty, small enough and the clock is not behind an item; it is
   complete exactly if everything is available and nothing ran out of time, and it is frozen once.
   */
  lemma FrozenExactly(env: Env, s: Settings, b: Builder, now: Moment, late: bool, tooLarge: bool)
    ensures var r := Finish(env, s, b, now, late, tooLarge);
            && (r.Success? <==>
                  !b.closed && b.items != [] && !tooLarge && forall i :: 0 <= i < |b.items| ==>
                    b.items[i].collected <= now)
            && (r.Success? ==>
                  var f := r.value.1;
                  && r.value.0 == b.(closed := true)
                  && SameItems(b.items, f.bundle.evidence, Window(b.started - s.lookback, now))
                  && (f.bundle.target, f.bundle.created, f.bundle.window)
                     == (s.target, now, Window(b.started - s.lookback, now))
                  && f.audit.entries == b.entries && f.audit.late == late
                  && (f.audit.started, f.audit.completed) == (b.started, now)
                  && (f.audit.configHash, f.audit.catalogHash) == (s.configHash, s.catalogHash)
                  && (f.audit.status == Complete <==> AllAvailable(b.items) && !late)
                  && (f.audit.status == Unavailable <==> NoneAvailable(b.items)))
    ensures b.closed ==> Finish(env, s, b, now, late, tooLarge) == Failure(Closed)
  {
    CountTells(b.items);
  }
}
