/**
 Freezing a collection (ai-ops/src/ai_ops/collection.py:234-366) and checking it again
 (ai-ops/src/ai_ops/data_policy.py:32-130).  Encoded sizes, reference checks, clocks and the deadline are
 parameters, and clock readings are UTC dates of the years 1 to 9999.
 */
module Snapshot {
  import opened Wrappers
  import opened Evidence
  import opened Captured

  datatype TimeField =
    | ResponseReceivedAt | EventTime | LastTimestamp | LogTimestamp | EvaluationTime
    | ArtifactObservedAt | StatusReconciledAt | HistoryDeployedAt

  function FieldName(f: TimeField): string {
    match f
    case ResponseReceivedAt => "response_received_at"
    case EventTime => "eventTime"
    case LastTimestamp => "lastTimestamp"
    case LogTimestamp => "log_timestamp"
    case EvaluationTime => "evaluation_time"
    case ArtifactObservedAt => "artifact_observed_at"
    case StatusReconciledAt => "status_reconciled_at"
    case HistoryDeployedAt => "history_deployed_at"
  }

  /** Which time a kind of evidence may be dated by. */
  predicate Dates(kind: Kind, f: TimeField) {
    match kind
    case Workload => f == ResponseReceivedAt
    case Config => f == ResponseReceivedAt
    case Deployment => f in {ResponseReceivedAt, ArtifactObservedAt, StatusReconciledAt, HistoryDeployedAt}
    case Metric => f == EvaluationTime
    case Log => f == LogTimestamp
    case Event => f == EventTime || f == LastTimestamp
  }

  datatype Status = Available | Missing | PermissionDenied | Stale | InvalidData

  datatype Source = Source(id: nat, kind: Kind, ref: string, target: string, timeField: TimeField)

  /** A read that failed, with a fixed reason that is never "collected". */
  datatype Failed = Failed(status: Status, reason: string)

  datatype Item = Item(id: nat, kind: Kind, ref: string, target: string, observed: Option<int>, collected: int,
                       window: Window, status: Status, missing: Option<string>, origin: string,
                       payload: Option<Payload>)

  datatype Entry = Entry(id: nat, status: Status, reason: string, timeField: TimeField, raw: Option<string>,
                         offset: Option<string>, collected: int, tolerated: bool, dimension: Option<string>)

  datatype Settings = Settings(target: string, configHash: string, catalogHash: string, lookback: int, maxItems: nat,
                               responseBytes: nat, rawLogBytes: nat, payloadBytes: nat, bundleBytes: nat,
                               linesPerPod: nat, tolerance: int, dimensions: set<string>)

  /**
   What freezing and checking share: reading and writing times, normalising a payload of a kind in a
   window, the length of a canonical encoding, and the check of a collector reference.
   */
  datatype Env = Env(codec: Codec, normal: (Kind, Payload, Window) -> Result<Payload, Refusal>,
                     size: Json -> nat, safe: string -> bool)

  /** The program's own normalisation. */
  function Program(codec: Codec, size: Json -> nat, safe: string -> bool): Env {
    Env(codec, (kind: Kind, p: Payload, w: Window) => Normalize(codec, kind, p, w), size, safe)
  }

  datatype Builder = Builder(started: int, items: seq<Item>, entries: seq<Entry>, logBytes: nat, closed: bool)

  datatype CollectionStatus = Complete | PartialData | Unavailable

  datatype Bundle = Bundle(target: string, window: Window, created: int, evidence: seq<Item>)
  datatype Audit = Audit(configHash: string, catalogHash: string, started: int, completed: int,
                         status: CollectionStatus, late: bool, entries: seq<Entry>)
  datatype Frozen = Frozen(bundle: Bundle, audit: Audit)

  datatype Error =
    | Closed | WrongTarget | WrongTimeField | UnsafeRef | TooMany | Duplicate | ClockMoved | OutOfRange | Empty
    | TooLarge

  function Origin(s: Settings): string { "captured-snapshot-v1:" + s.configHash }

  function SourceTime(c: Codec, raw: string, offset: string, collected: int, f: TimeField): Json {
    Object(map["observed_raw" := Text(raw), "observed_offset" := Text(offset),
               "collected_raw" := Text(c.text(collected)),
               "collected_offset" := Text("Z"), "time_field" := Text(FieldName(f))])
  }

  // ---- adding a candidate ----

  /** The time of an observation: where it falls decides whether its payload is looked at. */
  datatype Timed = Timed(status: Status, reason: string, observed: Option<int>, raw: Option<string>,
                         offset: Option<string>, tolerated: bool)

  function TimeOf(c: Codec, s: Settings, observedAt: Option<string>, w: Window): Timed {
    if observedAt.None? || |observedAt.value| > 64 || c.parse(observedAt.value).None?
    then Timed(InvalidData, "invalid_time", None, None, None, false)
    else
      var t := c.parse(observedAt.value).value;
      if t.at > w.end
      then Timed(InvalidData, "future_observation", None, observedAt, Some(t.offset), t.at - w.end <= s.tolerance)
      else if t.at < w.start then Timed(Stale, "outside_window", None, observedAt, Some(t.offset), false)
      else Timed(Available, "collected", Some(t.at), observedAt, Some(t.offset), false)
  }

  /** A metric was evaluated at the start of the snapshot, in every sample. */
  predicate EvaluatedAtStart(c: Codec, p: Payload, observed: int, started: int) {
    && observed == started && "samples" in p && p["samples"].List?
    && forall i :: 0 <= i < |p["samples"].items| ==>
         var x := p["samples"].items[i]; x.Object? && TextAt(x.fields, "at") && x.fields["at"].s == c.text(observed)
  }

  datatype Kept = Kept(status: Status, reason: string, payload: Option<Payload>, logBytes: nat)

  /** `n` is the candidate's normal form in the window of the addition. */
  function Keep(env: Env, s: Settings, b: Builder, kind: Kind, candidate: Option<Payload>, n: Result<Payload, Refusal>,
                t: Timed, f: TimeField, now: int): Kept
    requires t.observed.Some? && t.raw.Some? && t.offset.Some?
  {
    var size := env.size(if candidate.Some? then Object(candidate.value) else Null);
    if size > s.responseBytes then Kept(InvalidData, "response_too_large", None, b.logBytes)
    else if kind == Log && b.logBytes + size > s.rawLogBytes
    then Kept(InvalidData, "log_budget_exceeded", None, b.logBytes)
    else
      var used := if kind == Log then b.logBytes + size else b.logBytes;
      if candidate.None? || (kind == Log && TooManyLines(s, candidate.value))
      then Kept(InvalidData, "invalid_payload", None, used)
      else
        match n
        case Failure(NoDiagnosticFields) => Kept(Missing, "no_diagnostic_fields", None, used)
        case Failure(Invalid) => Kept(InvalidData, "invalid_payload", None, used)
        case Success(p) =>
          if kind == Metric && !EvaluatedAtStart(env.codec, p, t.observed.value, b.started)
          then Kept(InvalidData, "invalid_payload", None, used)
          else
            var full := p["source_time" := SourceTime(env.codec, t.raw.value, t.offset.value, now, f)];
            if env.size(Object(full)) > s.payloadBytes then Kept(InvalidData, "payload_too_large", None, used)
            else Kept(Available, "collected", Some(full), used)
  }

  predicate TooManyLines(s: Settings, payload: Payload) {
    "lines" in payload && payload["lines"].List? && |payload["lines"].items| > s.linesPerPod
  }

  function Looked(c: Codec, s: Settings, observedAt: Option<string>, failed: Option<Failed>, w: Window,
                  late: bool): Timed {
    if late then Timed(Missing, "deadline_exceeded", None, None, None, false)
    else if failed.Some? then Timed(failed.value.status, failed.value.reason, None, None, None, false)
    else TimeOf(c, s, observedAt, w)
  }

  /** What is kept of a candidate whose time was looked at. */
  function Settled(env: Env, s: Settings, b: Builder, kind: Kind, payload: Option<Payload>,
                   n: Result<Payload, Refusal>, t: Timed, f: TimeField, now: int): Kept {
    if t.status == Available && t.observed.Some? && t.raw.Some? && t.offset.Some?
    then Keep(env, s, b, kind, payload, n, t, f, now)
    else Kept(t.status, t.reason, None, b.logBytes)
  }

  /** The item and audit entry a candidate becomes; anything wrong with it is recorded, never its payload. */
  function Made(env: Env, s: Settings, b: Builder, q: Source, observedAt: Option<string>, payload: Option<Payload>,
                n: Result<Payload, Refusal>, failed: Option<Failed>, dimension: Option<string>, now: int, late: bool)
    : (Item, Entry, nat)
  {
    var w := Window(b.started - s.lookback, now);
    var t := Looked(env.codec, s, observedAt, failed, w, late);
    var k := Settled(env, s, b, q.kind, payload, n, t, q.timeField, now);
    (Item(q.id, q.kind, q.ref, q.target, t.observed, now, w, k.status,
          if k.status == Available then None else Some(k.reason), Origin(s), k.payload),
     Entry(q.id, k.status, k.reason, q.timeField, t.raw, t.offset, now, t.tolerated, dimension),
     k.logBytes)
  }

  function NormalForm(env: Env, s: Settings, b: Builder, kind: Kind, payload: Option<Payload>,
                      now: int): Result<Payload, Refusal> {
    if payload.None? then Failure(Invalid)
    else env.normal(kind, payload.value, Window(b.started - s.lookback, now))
  }

  /** A time that reads well but whose UTC instant no date can hold: converting it raises past the builder. */
  predicate Unrepresentable(c: Codec, observedAt: Option<string>) {
    observedAt.Some? && |observedAt.value| <= 64 && c.parse(observedAt.value).Some?
      && !InRange(c.parse(observedAt.value).value.at)
  }

  function AddError(env: Env, s: Settings, b: Builder, q: Source, observedAt: Option<string>, failed: Option<Failed>,
                    now: int, late: bool)
    : Option<Error>
  {
    if b.closed then Some(Closed)
    else if q.target != s.target then Some(WrongTarget)
    else if !Dates(q.kind, q.timeField) then Some(WrongTimeField)
    else if !env.safe(q.ref) then Some(UnsafeRef)
    else if |b.items| >= s.maxItems then Some(TooMany)
    else if exists i :: 0 <= i < |b.items| && b.items[i].id == q.id then Some(Duplicate)
    else if now < b.started then Some(ClockMoved)
    else if !InRange(b.started - s.lookback) then Some(OutOfRange)
    else if !late && failed.None? && Unrepresentable(env.codec, observedAt) then Some(OutOfRange)
    else None
  }

  function Appended(b: Builder, made: (Item, Entry, nat)): Builder {
    b.(items := b.items + [made.0], entries := b.entries + [made.1], logBytes := made.2)
  }

  function Add(env: Env, s: Settings, b: Builder, q: Source, observedAt: Option<string>, payload: Option<Payload>,
               failed: Option<Failed>, dimension: Option<string>, now: Moment, late: bool): Result<Builder, Error>
  {
    var e := AddError(env, s, b, q, observedAt, failed, now, late);
    if e.Some? then Failure(e.value)
    else
      var n := NormalForm(env, s, b, q.kind, payload, now);
      Success(Appended(b, Made(env, s, b, q, observedAt, payload, n, failed, dimension, now, late)))
  }

  // ---- freezing ----

  function CountAvailable(items: seq<Item>): nat {
    if items == [] then 0
    else CountAvailable(items[..|items| - 1]) + if items[|items| - 1].status == Available then 1 else 0
  }

  function Widened(items: seq<Item>, w: Window): seq<Item> {
    seq(|items|, i requires 0 <= i < |items| => items[i].(window := w))
  }

  function Finish(env: Env, s: Settings, b: Builder, now: Moment, late: bool,
                  tooLarge: bool): Result<(Builder, Frozen), Error> {
    if b.closed then Failure(Closed)
    else if b.items == [] then Failure(Empty)
    else if exists i :: 0 <= i < |b.items| && now < b.items[i].collected then Failure(ClockMoved)
    else if tooLarge then Failure(TooLarge)
    else
      var w := Window(b.started - s.lookback, now);
      var n := CountAvailable(b.items);
      var status := if n == |b.items| && !late then Complete else if n == 0 then Unavailable else PartialData;
      Success((b.(closed := true),
               Frozen(Bundle(s.target, w, now, Widened(b.items, w)),
                      Audit(s.configHash, s.catalogHash, b.started, now, status, late, b.entries))))
  }

  // ---- checking ----

  function EntryFor(entries: seq<Entry>, id: nat): Option<Entry> {
    if entries == [] then None
    else if entries[|entries| - 1].id == id then Some(entries[|entries| - 1])
    else EntryFor(entries[..|entries| - 1], id)
  }

  predicate TimesOk(item: Item, b: Bundle) {
    && item.window == b.window && item.collected <= b.created && item.target == b.target
    && (item.observed.Some? ==> In(b.window, item.observed.value))
  }

  /** A source time converted to UTC. */
  function Read(c: Codec, raw: string): Option<Stamp> {
    var t := c.parse(raw);
    if t.Some? && InRange(t.value.at) then t else None
  }

  predicate EntryOk(env: Env, s: Settings, item: Item, e: Entry, a: Audit) {
    && Dates(item.kind, e.timeField)
    && (if e.raw.Some?
        then |e.raw.value| <= 64 && Read(env.codec, e.raw.value).Some?
             && Some(Read(env.codec, e.raw.value).value.offset) == e.offset
        else e.offset.None?)
    && (e.dimension.Some? ==> e.dimension.value in s.dimensions)
    && env.safe(item.ref) && item.origin == "captured-snapshot-v1:" + a.configHash
    && e.status == item.status && e.collected == item.collected
  }

  /** The stored time metadata, read again. */
  predicate SourceTimeOk(c: Codec, st: Json, item: Item, e: Entry) {
    && st.Object? && st.fields.Keys
       == {"observed_raw", "observed_offset", "collected_raw", "collected_offset", "time_field"}
    && TextAt(st.fields, "observed_raw") && TextAt(st.fields, "collected_raw")
    && var o, k := Read(c, st.fields["observed_raw"].s), Read(c, st.fields["collected_raw"].s);
       && o.Some? && k.Some? && Some(o.value.at) == item.observed && k.value.at == item.collected
       && st.fields["observed_offset"] == Text(o.value.offset) && st.fields["collected_offset"] == Text(k.value.offset)
       && e.raw == Some(st.fields["observed_raw"].s) && e.offset == Some(o.value.offset)
       && st.fields["time_field"] == Text(FieldName(e.timeField))
  }

  /** The raw form the checker rebuilds from a stored payload. */
  function RawOf(kind: Kind, full: Payload): Option<Payload> {
    var base := full - {"source_time"};
    if kind == Log then Rebuild(kind, base) else Rebuild(kind, base - {"line_times"})
  }

  predicate Renormalized(n: Result<Payload, Refusal>, full: Payload)
    requires "source_time" in full
  {
    n.Success? && n.value["source_time" := full["source_time"]] == full
  }

  /** Every sample reads back as the start of the snapshot. */
  predicate SamplesAt(c: Codec, full: Payload, started: int) {
    && "samples" in full && full["samples"].List?
    && forall i :: 0 <= i < |full["samples"].items| ==>
         var x := full["samples"].items[i];
         x.Object? && TextAt(x.fields, "at") && Read(c, x.fields["at"].s).Some?
           && Read(c, x.fields["at"].s).value.at == started
  }

  predicate PayloadOk(env: Env, item: Item, full: Payload, w: Window, started: int) {
    && "source_time" in full && RawOf(item.kind, full).Some?
    && Renormalized(env.normal(item.kind, RawOf(item.kind, full).value, w), full)
    && (item.kind == Metric ==> item.observed == Some(started) && SamplesAt(env.codec, full, started))
  }

  predicate ItemOk(env: Env, s: Settings, item: Item, a: Audit, b: Bundle) {
    var e := EntryFor(a.entries, item.id);
    && TimesOk(item, b) && e.Some? && EntryOk(env, s, item, e.value, a)
    && (if item.status != Available then item.missing == Some(e.value.reason)
        else && e.value.reason == "collected" && item.payload.Some? && "source_time" in item.payload.value
             && SourceTimeOk(env.codec, item.payload.value["source_time"], item, e.value)
             && PayloadOk(env, item, item.payload.value, b.window, a.started))
  }

  predicate HeaderOk(s: Settings, b: Bundle, a: Audit) {
    && b.target == s.target && a.configHash == s.configHash && a.catalogHash == s.catalogHash
    && b.window.start == a.started - s.lookback && a.completed == b.created
    && b.window.start < a.started <= a.completed && |a.entries| == |b.evidence|
    && (forall i, j :: 0 <= i < j < |a.entries| ==> a.entries[i].id != a.entries[j].id)
  }

  function StatusOf(items: seq<Item>, late: bool): CollectionStatus {
    var n := CountAvailable(items);
    if n == 0 then Unavailable else if n == |items| && !late then Complete else PartialData
  }

  predicate Validate(env: Env, s: Settings, f: Frozen) {
    && HeaderOk(s, f.bundle, f.audit) && f.audit.status == StatusOf(f.bundle.evidence, f.audit.late)
    && forall i {:trigger f.bundle.evidence[i]} :: 0 <= i < |f.bundle.evidence| ==>
         ItemOk(env, s, f.bundle.evidence[i], f.audit, f.bundle)
  }
}
