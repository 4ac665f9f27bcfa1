/**
 What each kind of captured evidence must look like after projection, and the proof that normalising its
 own output, in any wider window, gives the same output (ai-ops/src/ai_ops/evidence.py:227-331,361-439).
 */
module Captured {
  import opened Wrappers
  import D = DiagnosticTokens
  import opened Evidence

  datatype Kind = Metric | Log | Event | Workload | Deployment | Config

  // ---- allowed texts ----

  predicate AlphaNumeric(c: char) { 'a' <= c <= 'z' || 'A' <= c <= 'Z' || '0' <= c <= '9' }

  predicate Spelled(s: string, limit: nat, extra: string) {
    1 <= |s| <= limit && forall i :: 0 <= i < |s| ==> AlphaNumeric(s[i]) || s[i] in extra
  }

  predicate Contains(s: string, part: string) { exists i :: 0 <= i <= |s| && part <= s[i..] }

  predicate ContainerName(s: string) {
    Spelled(s, 63, "-") && forall i :: 0 <= i < |s| ==> !('A' <= s[i] <= 'Z')
  }

  predicate ImageRef(s: string) { Spelled(s, 512, "._/@:+-") && !Contains(s, "://") }

  predicate Reference(s: string) { Spelled(s, 160, "._/-") }

  predicate Uid(s: string) { Spelled(s, 80, "-") }

  const QUERIES := {"cache_outcomes", "cache_hit_ratio", "http_error_ratio", "api_latency", "db_latency"}

  function OutcomesOf(query: string): set<string> {
    if query == "cache_outcomes" then D.OUTCOMES
    else if query == "api_latency" then {"p95", "count"}
    else if query == "db_latency" then {"p99", "count"}
    else {"ratio", "requests"}
  }

  function UnitOf(query: string): string {
    if query == "api_latency" || query == "db_latency" then "seconds" else if query == "cache_outcomes" then "count"
    else "ratio"
  }

  const REASONS := {
    "BackOff", "Failed", "FailedMount", "FailedScheduling", "Unhealthy", "Killing", "Pulling", "Pulled", "Created",
    "Started", "Scheduled", "SuccessfulCreate", "ScalingReplicaSet", "ImagePullBackOff", "ErrImagePull", "OOMKilled"
  }

  const PHASES := {"Pending", "Running", "Succeeded", "Failed", "Unknown"}
  const ROLES := {"primary", "replica", "unknown"}
  const STATUSES := {"failed", "progressing", "healthy", "healthy_after_rollback", "unknown"}

  const SAMPLE := ObjectShape(map["at" := TextShape, "outcome" := TextShape, "value" := NumberShape])

  function ShapeOf(kind: Kind): map<string, Shape> {
    match kind
    case Metric => map["query_id" := TextShape, "unit" := TextShape, "samples" := ListShape(SAMPLE)]
    case Log => map["container" := TextShape, "lines" := ListShape(TextShape)]
    case Event => map["reason" := TextShape, "message" := TextShape, "type" := TextShape, "involved_uid" := TextShape]
    case Workload => map["image" := TextShape, "phase" := TextShape, "ready" := BoolShape, "restarts" := NumberShape]
    case Deployment =>
      map["image" := TextShape, "source_sha" := TextShape, "gitops_revision" := TextShape,
          "rollback_revision" := TextShape, "ci_run_id" := TextShape, "status" := TextShape]
    case Config => map["cache_intended_enabled" := BoolShape, "redis_url_configured" := BoolShape,
                       "read_engine_role" := TextShape]
  }

  type Payload = map<string, Json>

  predicate TextAt(p: Payload, k: string) { k in p && p[k].Text? }

  // ---- the checks after projection ----

  predicate WorkloadOk(p: Payload) {
    && TextAt(p, "image") && ImageRef(p["image"].s) && TextAt(p, "phase") && p["phase"].s in PHASES
    && "ready" in p && "restarts" in p && p["restarts"].Number? && p["restarts"].whole
  }

  predicate ConfigOk(p: Payload) {
    "read_engine_role" in p ==> TextAt(p, "read_engine_role") && p["read_engine_role"].s in ROLES
  }

  predicate DeploymentOk(p: Payload) {
    && ("image" in p ==> TextAt(p, "image") && ImageRef(p["image"].s))
    && TextAt(p, "status") && p["status"].s in STATUSES
    && (forall k :: k in {"source_sha", "gitops_revision", "rollback_revision", "ci_run_id"} && k in p ==>
          TextAt(p, k) && Reference(p[k].s))
  }

  predicate FlatOk(kind: Kind, p: Payload) {
    match kind
    case Workload => WorkloadOk(p)
    case Config => ConfigOk(p)
    case Deployment => DeploymentOk(p)
    case _ => false
  }

  function ProjectKind(c: Codec, kind: Kind, source: Payload): Option<Payload> {
    var p := Project(c.redact, Object(source), ObjectShape(ShapeOf(kind)), 0);
    if p.None? || !p.value.Object? then None else Some(p.value.fields)
  }

  function NormalizeFlat(c: Codec, kind: Kind, source: Payload): Option<Payload> {
    var p := ProjectKind(c, kind, source);
    if p.None? || !FlatOk(kind, p.value) then None else p
  }

  // ---- metrics ----

  predicate SampleOk(query: string, s: Json) {
    && s.Object? && TextAt(s.fields, "at") && TextAt(s.fields, "outcome") && s.fields["outcome"].s in OutcomesOf(query)
    && "value" in s.fields && s.fields["value"].Number?
  }

  predicate MetricShapeOk(p: Payload) {
    && TextAt(p, "query_id") && p["query_id"].s in QUERIES && "samples" in p && p["samples"].List?
       && p["samples"].items != []
    && forall i :: 0 <= i < |p["samples"].items| ==> SampleOk(p["query_id"].s, p["samples"].items[i])
  }

  function OutcomeAt(items: seq<Json>, i: nat): string
    requires i < |items|
  {
    if items[i].Object? && TextAt(items[i].fields, "outcome") then items[i].fields["outcome"].s else ""
  }

  function ValueAt(items: seq<Json>, i: nat): real
    requires i < |items|
  {
    if items[i].Object? && "value" in items[i].fields && items[i].fields["value"].Number?
    then items[i].fields["value"].n else 0.0
  }

  /** One sample for each outcome, ratios up to one, and traffic behind every ratio or latency. */
  predicate MetricOk(p: Payload)
    requires MetricShapeOk(p)
  {
    var q, items := p["query_id"].s, p["samples"].items;
    && TextAt(p, "unit") && p["unit"].s == UnitOf(q)
    && (forall i, j :: 0 <= i < j < |items| ==> OutcomeAt(items, i) != OutcomeAt(items, j))
    && (forall i :: 0 <= i < |items| && OutcomeAt(items, i) == "ratio" ==> ValueAt(items, i) <= 1.0)
    && (q != "cache_outcomes" ==>
          && (forall o :: o in OutcomesOf(q) ==> exists i :: 0 <= i < |items| && OutcomeAt(items, i) == o)
          && (forall i :: 0 <= i < |items| && OutcomeAt(items, i) in {"requests", "count"} ==>
              ValueAt(items, i) != 0.0))
  }

  predicate In(w: Window, t: int) { w.start <= t <= w.end }

  /** A sample with its time in UTC, and as it was written. */
  function StampSample(c: Codec, s: Json, w: Window): Option<Json> {
    if !s.Object? || !TextAt(s.fields, "at") then None
    else
      var t := c.parse(s.fields["at"].s);
      if t.None? || !In(w, t.value.at) then None
      else
        var dated := s.fields["at" := Text(c.text(t.value.at))];
        Some(Object(dated["source_at" := s.fields["at"]]["source_offset" := Text(t.value.offset)]))
  }

  function StampAll(c: Codec, items: seq<Json>, w: Window): Option<seq<Json>> {
    if items == [] then Some([])
    else
      var n := |items| - 1;
      var first, last := StampAll(c, items[..n], w), StampSample(c, items[n], w);
      if first.None? || last.None? then None else Some(first.value + [last.value])
  }

  function NormalizeMetric(c: Codec, source: Payload, w: Window): Option<Payload> {
    var p := ProjectKind(c, Metric, source);
    if p.None? || !MetricShapeOk(p.value) then None
    else
      var items := StampAll(c, p.value["samples"].items, w);
      if items.None? || !MetricOk(p.value) then None else Some(p.value["samples" := List(items.value)])
  }

  // ---- events ----

  /** "the free message is left out by the collection policy", with no word characters. */
  const OMITTED: string := "자유 메시지는 수집 정책에 따라 생략됨"

  function EventMessage(message: string): string {
    if D.Tokens(message) == [] then OMITTED else D.Diagnose(message)
  }

  predicate EventSourceOk(source: Payload) {
    && TextAt(source, "reason") && source["reason"].s in REASONS
    && TextAt(source, "type") && source["type"].s in {"Normal", "Warning"}
    && TextAt(source, "involved_uid") && Uid(source["involved_uid"].s)
    && ("message" in source ==> source["message"].Text? && |source["message"].s| <= TEXT_LIMIT)
  }

  function NormalizeEvent(c: Codec, source: Payload): Option<Payload> {
    if !EventSourceOk(source) then None
    else
      var message := if "message" in source then source["message"].s else "";
      ProjectKind(c, Event, source["message" := Text(EventMessage(message))])
  }

  // ---- logs ----

  function Find(s: string, c: char): nat { if s == "" || s[0] == c then 0 else 1 + Find(s[1..], c) }

  lemma {:induction false} FindBounds(s: string, c: char)
    ensures Find(s, c) <= |s| && (Find(s, c) < |s| ==> s[Find(s, c)] == c) && c !in s[..Find(s, c)]
  {
    if s != "" && s[0] != c {
      FindBounds(s[1..], c);
      assert s[..Find(s, c)] == [s[0]] + s[1..][..Find(s[1..], c)];
    }
  }

  datatype Line = Line(raw: string, stamp: Stamp, message: string)

  /** One log line: its time up to the first space, which must be there, and the rest. */
  function ReadLine(c: Codec, line: Json, w: Window): Option<Line> {
    if !line.Text? || |line.s| > TEXT_LIMIT then None
    else
      FindBounds(line.s, ' ');
      var n := Find(line.s, ' ');
      var raw := line.s[..n];
      var t := c.parse(raw);
      if n > 64 || t.None? || n == |line.s| || !In(w, t.value.at) then None
      else Some(Line(raw, t.value, line.s[n + 1..]))
  }

  /** The lines that carry a token. */
  function ReadLines(c: Codec, lines: seq<Json>, w: Window): Option<seq<Line>> {
    if lines == [] then Some([])
    else
      var n := |lines| - 1;
      var first, last := ReadLines(c, lines[..n], w), ReadLine(c, lines[n], w);
      if first.None? || last.None? then None
      else Some(first.value + if D.Tokens(last.value.message) == [] then [] else [last.value])
  }

  function CleanLine(c: Codec, l: Line): string { c.text(l.stamp.at) + " " + D.Diagnose(l.message) }

  function CleanLines(c: Codec, ls: seq<Line>): seq<Json> {
    seq(|ls|, i requires 0 <= i < |ls| => Text(CleanLine(c, ls[i])))
  }

  function LineTime(c: Codec, l: Line): Json {
    Object(map["at" := Text(c.text(l.stamp.at)), "source_at" := Text(l.raw), "source_offset" := Text(l.stamp.offset)])
  }

  function LineTimes(c: Codec, ls: seq<Line>): seq<Json> { seq(|ls|, i requires 0 <= i < |ls| => LineTime(c, ls[i])) }

  datatype Refusal = NoDiagnosticFields | Invalid

  function NormalizeLog(c: Codec, source: Payload, w: Window): Result<Payload, Refusal> {
    if "lines" !in source || !source["lines"].List? || !(1 <= |source["lines"].items| <= 200) then Failure(Invalid)
    else
      var ls := ReadLines(c, source["lines"].items, w);
      if ls.None? then Failure(Invalid)
      else if ls.value == [] then Failure(NoDiagnosticFields)
      else
        var container := if "container" in source then source["container"] else Null;
        var p := ProjectKind(c, Log, map["container" := container, "lines" := List(CleanLines(c, ls.value))]);
        if p.None? || !TextAt(p.value, "container") || !ContainerName(p.value["container"].s) then Failure(Invalid)
        else Success(p.value["line_times" := List(LineTimes(c, ls.value))])
  }

  function Some2<T>(o: Option<T>): Result<T, Refusal> { if o.Some? then Success(o.value) else Failure(Invalid) }

  function Normalize(c: Codec, kind: Kind, source: Payload, w: Window): Result<Payload, Refusal> {
    match kind
    case Metric => Some2(NormalizeMetric(c, source, w))
    case Log => NormalizeLog(c, source, w)
    case Event => Some2(NormalizeEvent(c, source))
    case _ => Some2(NormalizeFlat(c, kind, source))
  }

  // ---- what the checker rebuilds from a stored payload ----

  function Unstamp(s: Json): Json {
    if s.Object? && "source_at" in s.fields && "outcome" in s.fields && "value" in s.fields
    then Object(map["at" := s.fields["source_at"], "outcome" := s.fields["outcome"], "value" := s.fields["value"]])
    else s
  }

  function Rejoin(line: Json, time: Json): Json {
    if line.Text? && time.Object? && TextAt(time.fields, "source_at")
    then
      FindBounds(line.s, ' ');
      var n := Find(line.s, ' ');
      Text(time.fields["source_at"].s + " " + if n < |line.s| then line.s[n + 1..] else "")
    else line
  }

  function RejoinAll(lines: seq<Json>, times: seq<Json>): seq<Json>
    requires |lines| == |times|
  {
    seq(|lines|, i requires 0 <= i < |lines| => Rejoin(lines[i], times[i]))
  }

  /** The raw form of a payload; None where the program raises. */
  function Rebuild(kind: Kind, p: Payload): Option<Payload> {
    match kind
    case Metric =>
      if "samples" !in p || !p["samples"].List? then None
      else
        var xs := p["samples"].items;
        Some(p["samples" := List(seq(|xs|, i requires 0 <= i < |xs| => Unstamp(xs[i])))])
    case Log =>
      if "lines" !in p || "line_times" !in p || !p["lines"].List? || !p["line_times"].List?
         || |p["lines"].items| != |p["line_times"].items| then None
      else Some((p - {"line_times"})["lines" := List(RejoinAll(p["lines"].items, p["line_times"].items))])
    case _ => Some(p)
  }
}
