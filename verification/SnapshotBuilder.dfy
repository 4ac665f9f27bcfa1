/**
 The builder as the program has it, an object that collects items until it is frozen, and the loops of
 normalising and checking, each proved against the functions the laws are about.
 */
module SnapshotBuilder {
  import opened Wrappers
  import D = DiagnosticTokens
  import opened Evidence
  import opened Captured
  import S = Snapshot
  import R = ReadBudget

  class SnapshotBuilder {
    const env: S.Env
    const settings: S.Settings
    const limits: R.Limits
    const started: int
    var items: seq<S.Item>
    var entries: seq<S.Entry>
    var logBytes: nat
    var rawBytes: nat
    var rawLogBytes: nat
    var closed: bool

    function View(): S.Builder
      reads this
    {
      S.Builder(started, items, entries, logBytes, closed)
    }

    constructor (env: S.Env, settings: S.Settings, limits: R.Limits, now: Moment)
      ensures this.env == env && this.settings == settings && this.limits == limits
      ensures View() == S.Builder(now, [], [], 0, false) && rawBytes == 0 && rawLogBytes == 0
    {
      this.env, this.settings, this.limits, started := env, settings, limits, now;
      items, entries, logBytes, rawBytes, rawLogBytes, closed := [], [], 0, 0, 0, false;
    }

    method Read(log: bool, limit: nat, reply: R.Reply, expired: bool, late: bool) returns (o: R.Outcome)
      requires !closed
      modifies this`rawBytes, this`rawLogBytes
      ensures (R.Spent(rawBytes, rawLogBytes), o)
              == R.Read(limits, R.Spent(old(rawBytes), old(rawLogBytes)), log, limit, reply, expired, late)
    {
      if expired { return R.Refused("deadline_exceeded"); }
      var most := R.Min(limits.response, limits.total - rawBytes);
      if log {
        var left := limits.logs - rawLogBytes;
        if left <= 0 { return R.Refused("log_budget_exceeded"); }
        most := R.Min(R.Min(most, limit), left);
      }
      if most <= 0 { return R.Refused("raw_budget_exceeded"); }
      if reply.Broken? { return R.Refused(reply.reason); }
      rawBytes := rawBytes + reply.size;
      if log { rawLogBytes := rawLogBytes + reply.size; }
      if late { return R.Refused("deadline_exceeded"); }
      if reply.size > most { return R.Refused("response_too_large"); }
      if reply.code == 403 { return R.Refused("permission_denied"); }
      if reply.code == 404 { return R.Refused("not_found"); }
      if reply.code != 200 { return R.Refused("upstream_error"); }
      o := R.Accepted(reply.size);
    }

    /** Reads the observation's time; outside the window it is kept for the audit only. */
    method Observe(observedAt: Option<string>, w: Window) returns (t: S.Timed)
      ensures t == S.TimeOf(env.codec, settings, observedAt, w)
    {
      t := S.Timed(S.InvalidData, "invalid_time", None, None, None, false);
      if observedAt.None? || |observedAt.value| > 64 { return; }
      var read := env.codec.parse(observedAt.value);
      if read.None? { return; }
      var at := read.value.at;
      t := S.Timed(S.Available, "collected", Some(at), observedAt, Some(read.value.offset), false);
      if at > w.end {
        t := t.(status := S.InvalidData, reason := "future_observation", observed := None,
                tolerated := at - w.end <= settings.tolerance);
      } else if at < w.start {
        t := t.(status := S.Stale, reason := "outside_window", observed := None);
      }
    }

    /** Spends the log budget, normalises, and keeps the payload with its time metadata if it fits. */
    method Retain(kind: Kind, payload: Option<Payload>, t: S.Timed, f: S.TimeField, now: Moment)
      returns (status: S.Status, reason: string, kept: Option<Payload>)
      requires t.observed.Some? && t.raw.Some? && t.offset.Some?
      modifies this`logBytes
      ensures S.Kept(status, reason, kept, logBytes)
              == S.Keep(env, settings, old(View()), kind, payload,
                        S.NormalForm(env, settings, old(View()), kind, payload, now), t, f, now)
    {
      var size := env.size(if payload.Some? then Object(payload.value) else Null);
      status, reason, kept := S.InvalidData, "invalid_payload", None;
      if size > settings.responseBytes { return S.InvalidData, "response_too_large", None; }
      if kind == Log {
        if logBytes + size > settings.rawLogBytes { return S.InvalidData, "log_budget_exceeded", None; }
        logBytes := logBytes + size;
        if payload.Some? && S.TooManyLines(settings, payload.value) { return; }
      }
      if payload.None? { return; }
      var n := env.normal(kind, payload.value, Window(started - settings.lookback, now));
      if n.Failure? {
        if n.error == NoDiagnosticFields { status, reason := S.Missing, "no_diagnostic_fields"; }
        return;
      }
      if kind == Metric && !S.EvaluatedAtStart(env.codec, n.value, t.observed.value, started) { return; }
      var full := n.value["source_time" := S.SourceTime(env.codec, t.raw.value, t.offset.value, now, f)];
      if env.size(Object(full)) > settings.payloadBytes { return S.InvalidData, "payload_too_large", None; }
      status, reason, kept := S.Available, "collected", Some(full);
    }

    /** The payload of a candidate whose time is good, or why there is none. */
    method Settle(kind: Kind, payload: Option<Payload>, t: S.Timed, f: S.TimeField, now: Moment)
      returns (status: S.Status, reason: string, kept: Option<Payload>)
      modifies this`logBytes
      ensures S.Kept(status, reason, kept, logBytes)
              == S.Settled(env, settings, old(View()), kind, payload,
                           S.NormalForm(env, settings, old(View()), kind, payload, now), t, f, now)
    {
      status, reason, kept := t.status, t.reason, None;
      if status == S.Available && t.observed.Some? && t.raw.Some? && t.offset.Some? {
        status, reason, kept := Retain(kind, payload, t, f, now);
      }
    }

    method Add(q: S.Source, observedAt: Option<string>, payload: Option<Payload>, failed: Option<S.Failed>,
               dimension: Option<string>, now: Moment, late: bool) returns (r: Result<S.Item, S.Error>)
      modifies this`items, this`entries, this`logBytes
      ensures match S.Add(env, settings, old(View()), q, observedAt, payload, failed, dimension, now, late)
              case Success(b) => View() == b && items != [] && r == Success(items[|items| - 1])
              case Failure(e) => View() == old(View()) && r == Failure(e)
    {
      var refused := Refuse(q, observedAt, failed, now, late);
      if refused.Some? { return Failure(refused.value); }
      var t := Look(observedAt, failed, now, late);
      var status, reason, kept := Settle(q.kind, payload, t, q.timeField, now);
      var item := Record(q, t, status, reason, kept, dimension, now);
      r := Success(item);
    }

    /** The time of a candidate that did not fail, as long as there is time left. */
    method Look(observedAt: Option<string>, failed: Option<S.Failed>, now: Moment, late: bool) returns (t: S.Timed)
      ensures t == S.Looked(env.codec, settings, observedAt, failed, Window(started - settings.lookback, now), late)
    {
      t := S.Timed(S.Missing, "deadline_exceeded", None, None, None, false);
      if !late {
        if failed.Some? {
          t := S.Timed(failed.value.status, failed.value.reason, None, None, None, false);
        } else {
          t := Observe(observedAt, Window(started - settings.lookback, now));
        }
      }
    }

    /** The item and its audit entry, side by side. */
    method Record(q: S.Source, t: S.Timed, status: S.Status, reason: string, kept: Option<Payload>,
                  dimension: Option<string>, now: Moment) returns (item: S.Item)
      modifies this`items, this`entries
      ensures item == S.Item(q.id, q.kind, q.ref, q.target, t.observed, now, Window(started - settings.lookback, now),
                             status, if status == S.Available then None else Some(reason), S.Origin(settings), kept)
      ensures items == old(items) + [item]
      ensures entries == old(entries) +
              [S.Entry(q.id, status, reason, q.timeField, t.raw, t.offset, now, t.tolerated, dimension)]
    {
      item := S.Item(q.id, q.kind, q.ref, q.target, t.observed, now, Window(started - settings.lookback, now), status,
                     if status == S.Available then None else Some(reason), S.Origin(settings), kept);
      items := items + [item];
      entries := entries + [S.Entry(q.id, status, reason, q.timeField, t.raw, t.offset, now, t.tolerated, dimension)];
    }

    /** Everything that raises before anything is recorded. */
    method Refuse(q: S.Source, observedAt: Option<string>, failed: Option<S.Failed>, now: Moment, late: bool)
      returns (e: Option<S.Error>)
      ensures e == S.AddError(env, settings, View(), q, observedAt, failed, now, late)
    {
      if closed { return Some(S.Closed); }
      if q.target != settings.target { return Some(S.WrongTarget); }
      if !S.Dates(q.kind, q.timeField) { return Some(S.WrongTimeField); }
      if !env.safe(q.ref) { return Some(S.UnsafeRef); }
      if |items| >= settings.maxItems { return Some(S.TooMany); }
      if exists i :: 0 <= i < |items| && items[i].id == q.id { return Some(S.Duplicate); }
      if now < started { return Some(S.ClockMoved); }
      if !InRange(started - settings.lookback) { return Some(S.OutOfRange); }
      if !late && failed.None? && S.Unrepresentable(env.codec, observedAt) { return Some(S.OutOfRange); }
      e := None;
    }

    method Finish(now: Moment, late: bool, tooLarge: bool) returns (r: Result<S.Frozen, S.Error>)
      modifies this`closed
      ensures match S.Finish(env, settings, old(View()), now, late, tooLarge)
              case Success((b, f)) => View() == b && r == Success(f)
              case Failure(e) => View() == old(View()) && r == Failure(e)
    {
      if closed { return Failure(S.Closed); }
      if items == [] { return Failure(S.Empty); }
      if exists i :: 0 <= i < |items| && now < items[i].collected { return Failure(S.ClockMoved); }
      if tooLarge { return Failure(S.TooLarge); }
      var w := Window(started - settings.lookback, now);
      var available := S.CountAvailable(items);
      var status := if available == |items| && !late then S.Complete else if available == 0 then S.Unavailable
        else S.PartialData;
      closed := true;
      r := Success(S.Frozen(S.Bundle(settings.target, w, now, S.Widened(items, w)),
                            S.Audit(settings.configHash, settings.catalogHash, started, now, status, late, entries)));
    }
  }

  /** Sample times are rewritten in place; the first bad one stops the loop. */
  method NormalizeSampleTimes(c: Codec, samples: array<Json>, w: Window) returns (ok: bool)
    modifies samples
    ensures ok <==> StampAll(c, old(samples[..]), w).Some?
    ensures ok ==> samples[..] == StampAll(c, old(samples[..]), w).value
  {
    ghost var was := samples[..];
    var i := 0;
    while i < samples.Length
      invariant 0 <= i <= samples.Length
      invariant StampAll(c, was[..i], w).Some? && samples[..i] == StampAll(c, was[..i], w).value
      invariant forall j :: i <= j < samples.Length ==> samples[j] == was[j]
    {
      var stamped := StampSample(c, samples[i], w);
      assert was[..i + 1] == was[..i] + [was[i]] && was[..i + 1][..i] == was[..i];
      if stamped.None? {
        StampPrefix(c, was, w, i + 1);
        return false;
      }
      samples[i] := stamped.value;
      i := i + 1;
      assert samples[..i] == samples[..i - 1] + [stamped.value];
    }
    assert was[..i] == was && samples[..i] == samples[..];
    ok := true;
  }

  lemma {:induction false} StampPrefix(c: Codec, items: seq<Json>, w: Window, n: nat)
    requires n <= |items| && StampAll(c, items[..n], w).None?
    ensures StampAll(c, items, w).None?
    decreases |items|
  {
    if n == |items| {
      assert items[..n] == items;
    } else {
      var m := |items| - 1;
      assert items[..m][..n] == items[..n];
      StampPrefix(c, items[..m], w, n);
    }
  }

  /** The loop over log lines, keeping those with a token. */
  method CollectLines(c: Codec, lines: seq<Json>, w: Window) returns (r: Option<seq<Line>>)
    ensures r == ReadLines(c, lines, w)
  {
    var kept: seq<Line> := [];
    var i := 0;
    while i < |lines|
      invariant 0 <= i <= |lines| && ReadLines(c, lines[..i], w) == Some(kept)
    {
      var line := ReadLine(c, lines[i], w);
      assert lines[..i + 1][..i] == lines[..i];
      if line.None? {
        LinesPrefix(c, lines, w, i + 1);
        return None;
      }
      assert kept + [] == kept && lines[..i + 1][i] == lines[i];
      if D.Tokens(line.value.message) != [] { kept := kept + [line.value]; }
      i := i + 1;
    }
    assert lines[..i] == lines;
    r := Some(kept);
  }

  lemma {:induction false} LinesPrefix(c: Codec, lines: seq<Json>, w: Window, n: nat)
    requires n <= |lines| && ReadLines(c, lines[..n], w).None?
    ensures ReadLines(c, lines, w).None?
    decreases |lines|
  {
    if n == |lines| {
      assert lines[..n] == lines;
    } else {
      var m := |lines| - 1;
      assert lines[..m][..n] == lines[..n];
      LinesPrefix(c, lines[..m], w, n);
    }
  }

  /** The checker's loop over the evidence. */
  method ValidateSnapshot(env: S.Env, s: S.Settings, f: S.Frozen) returns (ok: bool)
    ensures ok == S.Validate(env, s, f)
  {
    if !S.HeaderOk(s, f.bundle, f.audit) { return false; }
    var available := 0;
    var i := 0;
    while i < |f.bundle.evidence|
      invariant 0 <= i <= |f.bundle.evidence| && available == S.CountAvailable(f.bundle.evidence[..i])
      invariant forall j {:trigger f.bundle.evidence[j]} :: 0 <= j < i ==>
                S.ItemOk(env, s, f.bundle.evidence[j], f.audit, f.bundle)
    {
      var item := f.bundle.evidence[i];
      if !S.ItemOk(env, s, item, f.audit, f.bundle) { return false; }
      assert f.bundle.evidence[..i + 1][..i] == f.bundle.evidence[..i];
      if item.status == S.Available { available := available + 1; }
      i := i + 1;
    }
    assert f.bundle.evidence[..i] == f.bundle.evidence;
    var expected := if available == 0 then S.Unavailable
                    else if available == |f.bundle.evidence| && !f.audit.late then S.Complete else S.PartialData;
    ok := f.audit.status == expected;
  }
}
