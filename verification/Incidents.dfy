/**
 The run store (ai-ops/src/ai_ops/incidents.py:105-505): one directory of files per run, an index by
 request, one lock.  Every file is replaced atomically; an investigation is a fixed sequence of such
 writes, and the process may stop after any of them.
 */
module Incidents {
  import opened Wrappers

  type RequestId = nat

  datatype RunKey = RunKey(incident: nat, run: nat)  // two fresh uuids
  datatype Mode = Rules | Ai

  /** `captured`: some evidence comes from a cluster, not a fixture. */
  datatype Bundle = Bundle(captured: bool, available: set<string>, content: string)
  datatype Audit = Audit(complete: bool, content: string)

  /** Everything the request fingerprint covers; the keyed hash is injective, so it is the value itself. */
  datatype Input = Input(request: RequestId, mode: Mode, question: string, bundle: Bundle, audit: Option<Audit>)

  /** The audit file binds the audit to its bundle. */
  datatype Envelope = Envelope(bundle: Bundle, audit: Audit)

  datatype Engine = CapturedRules | FallbackRules | OtherEngine
  datatype Report = Report(input: Input, key: RunKey, mode: Mode, engine: Engine, partial: bool, cites: set<string>,
                           text: string)

  /** The tool audit of a model run: which evidence the model was given. */
  datatype Tools = Tools(key: RunKey, bundle: Bundle, delivered: set<string>)

  datatype Status = Accepted | Validating | Analyzing | Completed | Partial | Failed | Cancelled

  datatype Meta = Meta(key: RunKey, input: Input, envelope: Option<Envelope>, status: Status, reason: Option<string>,
                       history: seq<Status>)

  datatype Run = Run(audit: Option<Envelope>, input: Option<Input>, meta: Option<Meta>, tools: Option<Tools>,
                     report: Option<Report>, markdown: Option<Report>)

  datatype Entry = Entry(input: Input, key: RunKey)
  datatype Store = Store(runs: map<RunKey, Run>, index: map<RequestId, Entry>)

  const NOTHING := Run(None, None, None, None, None, None)

  const FALLBACK: set<string> := {
    "total_timeout", "tool_timeout", "model_rate_limited", "model_server_error", "model_network_error",
    "model_http_401", "model_http_403", "model_credit_balance_exhausted", "model_insufficient_quota",
    "model_organization_spend_limit_exceeded", "model_project_spend_limit_exceeded",
    "model_organization_usage_limit_exceeded", "model_retry_exhausted", "model_call_limit", "case_budget_limit",
    "case_budget_exceeded", "daily_budget_limit"
  }

  /** Checked before the lock: no captured evidence leaves for a model, and a snapshot is captured. */
  predicate Admissible(x: Input) {
    (x.mode == Ai ==> !x.bundle.captured) && (x.audit.Some? ==> x.bundle.captured)
  }

  predicate IsActive(s: Status) { s == Accepted || s == Validating || s == Analyzing }

  function EnvelopeOf(x: Input): Option<Envelope> {
    if x.audit.Some? then Some(Envelope(x.bundle, x.audit.value)) else None
  }

  /** The built-in analysis of captured evidence is a function of its inputs. */
  function CapturedReport(x: Input, key: RunKey): Report {
    Report(x, key, Rules, CapturedRules, x.audit.Some? && !x.audit.value.complete, {}, "captured")
  }

  function FallbackReport(x: Input, key: RunKey): Report { Report(x, key, Rules, FallbackRules, true, {}, "fallback") }

  /** The report belongs to this run and cites only evidence it had. */
  predicate Fits(r: Report, x: Input, key: RunKey, delivered: Option<set<string>>) {
    && r.input == x && r.key == key && r.cites <= x.bundle.available
    && (r.mode == Ai ==> delivered.Some? && r.cites <= delivered.value)
  }

  datatype Error =
    | MissingFile | WrongRun | AuditMismatch | UnsupportedVersion | Contradiction | ModeMismatch | UnexplainedPartial
    | BadReport

  /** The checks before a stored run is returned; a run without a report returns its metadata only. */
  function ReadRecord(run: Run, key: RunKey): Result<Option<Report>, Error> {
    if run.meta.None? then Failure(MissingFile)
    else
      var m := run.meta.value;
      if m.key != key then Failure(WrongRun)
      else if m.status != Completed && m.status != Partial then Success(None)
      else if run.input.None? || run.report.None? then Failure(MissingFile)
      else
        var x, r := run.input.value, run.report.value;
        var bad := if x.audit.Some? then SnapshotError(run, key) else if m.envelope.Some? then Some(AuditMismatch)
          else None;
        if bad.Some? then Failure(bad.value)
        else
          var fallback := m.status == Partial && m.input.mode == Ai && r.mode == Rules && r.engine == FallbackRules
                          && r.partial && m.reason.Some? && m.reason.value in FALLBACK;
          var collection := x.audit.Some? && !x.audit.value.complete && r.mode == Rules && r.engine == CapturedRules
                            && r.partial && m.reason == Some("collection_incomplete");
          if r.mode != m.input.mode && !fallback then Failure(ModeMismatch)
          else if m.status == Partial && !fallback && !collection then Failure(UnexplainedPartial)
          else if r.mode == Ai && (run.tools.None? || run.tools.value.key != key || run.tools.value.bundle != x.bundle)
          then Failure(BadReport)
          else
            var delivered := if r.mode == Ai then Some(run.tools.value.delivered) else None;
            if !Fits(r, x, key, delivered) then Failure(BadReport) else Success(Some(r))
  }

  /** A snapshot's report is derived again and compared. */
  function SnapshotError(run: Run, key: RunKey): Option<Error>
    requires run.meta.Some? && run.input.Some? && run.report.Some?
  {
    var m, x, r := run.meta.value, run.input.value, run.report.value;
    if run.audit.None? then Some(MissingFile)
    else if run.audit.value.bundle != x.bundle || run.audit != m.envelope || run.audit != EnvelopeOf(x)
    then Some(AuditMismatch)
    else if r.engine != CapturedRules then Some(UnsupportedVersion)
    else
      var expected := CapturedReport(x, key);
      var status := if expected.partial then Partial else Completed;
      if r != expected || m.status != status || m.reason != (if expected.partial then Some("collection_incomplete")
                                                             else None)
      then Some(Contradiction)
      else None
  }

  // ---- an investigation, one atomic step at a time ----

  /** What comes next.  A status change is first made in memory, then written. */
  datatype Stage =
    | WriteAudit | WriteInput | WriteMeta | WriteIndex
    | Budget | SetValidating | PutValidating | SetAnalyzing | PutAnalyzing | Analyze
    | PutTools | PutReport | PutMarkdown | SetFinal | PutFinal | Leave
    | RescueTools(reason: string, cancelled: bool) | RescueReport(reason: string) | RescueMarkdown(reason: string)
    | SetEnd(status: Status, reason: string) | PutEnd

  datatype Task = Task(key: RunKey, input: Input, meta: Meta, stage: Stage, tools: Option<Tools>,
                       report: Option<Report>)

  /** What may be raised inside the guarded part. */
  datatype Fault =
    | Interrupt
    | AiError(reason: string, replay: Option<set<string>>, cancelled: bool)
    | BudgetLimit
    | Other

  datatype Outcome = Outcome(report: Report, delivered: Option<set<string>>)

  function Begin(key: RunKey, x: Input): Task {
    Task(key, x, Meta(key, x, EnvelopeOf(x), Accepted, None, [Accepted]),
         if x.audit.Some? then WriteAudit else WriteInput, None, None)
  }

  function Changed(m: Meta, status: Status, reason: Option<string>): Meta {
    m.(status := status, reason := reason, history := m.history + [status])
  }

  /** The end the first, unfaulted path reaches. */
  function FinalStatus(t: Task): Status
    requires t.report.Some?
  {
    if t.input.audit.Some? && t.report.value.partial then Partial else Completed
  }

  function FinalReason(t: Task): Option<string>
    requires t.report.Some?
  {
    if FinalStatus(t) == Partial then Some("collection_incomplete") else None
  }

  /** The analyser's answer, kept only if it is what this mode and run need. */
  predicate Usable(t: Task, o: Outcome) {
    && (t.input.mode == Ai <==> o.delivered.Some?) && o.report.mode == t.input.mode
    && (t.input.bundle.captured ==> o.report == CapturedReport(t.input, t.key))
    && Fits(o.report, t.input, t.key, o.delivered)
  }

  predicate Guarded(s: Stage) {
    s.Budget? || s.SetValidating? || s.PutValidating? || s.SetAnalyzing? || s.PutAnalyzing? || s.Analyze?
    || s.PutTools? || s.PutReport? || s.PutMarkdown? || s.SetFinal? || s.PutFinal? || s.Leave?
  }

  /** Where each fault can be raised. */
  predicate CanRaise(t: Task, f: Fault) {
    && Guarded(t.stage) && (f.AiError? ==> t.stage.Analyze? && t.input.mode == Ai)
    && (f.BudgetLimit? ==> t.stage.Budget? && t.input.mode == Ai)
  }

  /** The handlers: cancelled, a fallback report for a listed model failure, or failed. */
  function Handle(t: Task, f: Fault): Task {
    match f
    case Interrupt => t.(stage := SetEnd(Cancelled, "user_cancelled"))
    case AiError(reason, replay, cancelled) =>
      var t2 := if replay.Some? then t.(tools := Some(Tools(t.key, t.input.bundle, replay.value))) else t;
      t2.(stage := if replay.Some? then RescueTools(reason, cancelled) else Rescue(t, reason))
    case BudgetLimit => t.(stage := Rescue(t, "daily_budget_limit"))
    case Other => t.(stage := SetEnd(Failed, if t.input.mode == Ai then "ai_error" else "rules_error"))
  }

  function Rescue(t: Task, reason: string): Stage {
    if t.input.mode == Ai && reason in FALLBACK then RescueReport(reason) else SetEnd(Failed, reason)
  }

  /** The file a step writes into its run's directory, if it writes one. */
  function Written(run: Run, t: Task): Run {
    match t.stage
    case WriteAudit => run.(audit := EnvelopeOf(t.input))
    case WriteInput => run.(input := Some(t.input))
    case WriteMeta => run.(meta := Some(t.meta))
    case PutValidating => run.(meta := Some(t.meta))
    case PutAnalyzing => run.(meta := Some(t.meta))
    case PutTools => if t.tools.Some? then run.(tools := t.tools) else run
    case PutReport => run.(report := t.report)
    case PutMarkdown => run.(markdown := t.report)
    case PutFinal => run.(meta := Some(t.meta))
    case RescueTools(_, _) => run.(tools := t.tools)
    case RescueReport(_) => run.(report := Some(FallbackReport(t.input, t.key)))
    case RescueMarkdown(_) => run.(markdown := Some(FallbackReport(t.input, t.key)))
    case PutEnd => run.(meta := Some(t.meta))
    case _ => run
  }

  /** The step itself; `o` is what the analyser answers, and matters only where it is asked. */
  function Next(t: Task, o: Outcome): Task {
    match t.stage
    case WriteAudit => t.(stage := WriteInput)
    case WriteInput => t.(stage := WriteMeta)
    case WriteMeta => t.(stage := WriteIndex)
    case WriteIndex => t.(stage := Budget)
    case Budget => t.(stage := SetValidating)
    case SetValidating => t.(meta := Changed(t.meta, Validating, None), stage := PutValidating)
    case PutValidating => t.(stage := SetAnalyzing)
    case SetAnalyzing => t.(meta := Changed(t.meta, Analyzing, None), stage := PutAnalyzing)
    case PutAnalyzing => t.(stage := Analyze)
    case Analyze =>
      if !Usable(t, o) then Handle(t, Other)
      else t.(report := Some(o.report), stage := PutTools,
              tools := if o.delivered.Some? then Some(Tools(t.key, t.input.bundle, o.delivered.value)) else None)
    case PutTools => t.(stage := PutReport)
    case PutReport => t.(stage := PutMarkdown)
    case PutMarkdown => t.(stage := SetFinal)
    case SetFinal =>
      if t.report.None? then t else t.(meta := Changed(t.meta, FinalStatus(t), FinalReason(t)), stage := PutFinal)
    case PutFinal => t.(stage := Leave)
    case Leave => t
    case RescueTools(reason, cancelled) =>
      t.(stage := if cancelled then SetEnd(Cancelled, reason) else Rescue(t, reason))
    case RescueReport(reason) => t.(stage := RescueMarkdown(reason))
    case RescueMarkdown(reason) => t.(stage := SetEnd(Partial, reason))
    case SetEnd(status, reason) => t.(meta := Changed(t.meta, status, Some(reason)), stage := PutEnd)
    case PutEnd => t
  }

  /** The step that ends the call and frees the lock. */
  predicate Last(s: Stage) { s.Leave? || s.PutEnd? }

  /** Repair, part one: a run found active was interrupted. */
  function Repaired(m: Meta): Meta { if IsActive(m.status) then Changed(m, Failed, Some("interrupted")) else m }
}
