/**
 The comparison store (ai-ops/src/ai_ops/model_comparison.py:123-338): one file per comparison, two
 budget ledgers, and a purge that leaves a tombstone.  One process at a time holds the lock; every file
 is replaced atomically, and the process may stop between any two replacements.
 */
module ModelComparison {
  import opened Wrappers

  const DAY: int := 86400000000  // microseconds
  const LIFE: int := 7 * DAY
  const APPROVAL: int := 1800000000
  const RESERVE_CENTS := 10
  const DAILY_CENTS := 100
  const LEDGER_DAYS := 90

  datatype Mode = Mock | Live
  datatype Plan = Plan(mode: Mode, credential: Option<string>, priceDay: int)

  /** Everything a binding hash covers; hashes are injective, so the hash is the value itself. */
  datatype Bound = Bound(projection: string, plan: Plan, templates: string, implementation: string, prompt: string)

  datatype State = Prepared | Approved | Sending | Failed | NeedsReview
  datatype Approval = Approval(actor: string, bound: Bound, retention: bool, sharingOff: bool, at: int, expires: int)

  datatype Record =
    | Record(bound: Bound, state: State, rules: string, created: int, expires: int, approval: Option<Approval>,
             reason: Option<string>)
    | Tombstone(bound: Bound, at: int)

  datatype Ledger = Ledger(days: map<int, int>, lastAt: int)

  datatype Files = Files(records: map<nat, Record>, mock: Option<Ledger>, live: Option<Ledger>)

  /** What the running code computes again for a stored projection. */
  datatype Code = Code(implementation: string, templates: map<(string, Plan), string>, rules: map<string, string>)

  datatype Transport = Transport(mode: Mode, credential: Option<string>)

  datatype Error =
    | Missing | Purged | CodeChanged | RulesChanged | NoEvidence | IdentityConflict | RetentionUnknown | SharingUnknown
    | ApprovalRejected | PriceExpired | NotEnabled | PlanMismatch | PreviousUnknown | NotApproved | ClockMovedBackwards
    | BudgetLimit

  const EMPTY := Files(map[], None, None)

  function Day(at: int): int { at / DAY }

  function LedgerOf(f: Files, mode: Mode): Option<Ledger> { if mode.Mock? then f.mock else f.live }

  function SetLedger(f: Files, mode: Mode, l: Ledger): Files {
    if mode.Mock? then f.(mock := Some(l)) else f.(live := Some(l))
  }

  function SpentOn(f: Files, mode: Mode, day: int): int {
    if LedgerOf(f, mode).Some? && day in LedgerOf(f, mode).value.days then LedgerOf(f, mode).value.days[day] else 0
  }

  predicate Current(code: Code, b: Bound) {
    && b.implementation == code.implementation
    && (b.projection, b.plan) in code.templates && code.templates[(b.projection, b.plan)] == b.templates
  }

  /** A record that may be used: not purged, and the code still derives from it what was bound. */
  function Validated(f: Files, code: Code, id: nat): Result<Record, Error> {
    if id !in f.records then Failure(Missing)
    else if f.records[id].Tombstone? then Failure(Purged)
    else if !Current(code, f.records[id].bound) then Failure(CodeChanged)
    else if f.records[id].bound.projection !in code.rules || code.rules[f.records[id].bound.projection]
         != f.records[id].rules
    then Failure(RulesChanged)
    else Success(f.records[id])
  }

  /** The identifier is a prefix of the binding's hash: another binding under it is a conflict. */
  function Prepare(f: Files, id: nat, b: Bound, rules: string, evidence: bool, now: int): Result<Files, Error> {
    if !evidence then Failure(NoEvidence)
    else if id in f.records then if f.records[id].bound != b then Failure(IdentityConflict) else Success(f)
    else Success(f.(records := f.records[id := Record(b, Prepared, rules, now, now + LIFE, None, None)]))
  }

  predicate PriceFresh(plan: Plan, now: int) { 0 <= Day(now) - plan.priceDay <= 7 }

  function Approve(f: Files, code: Code, id: nat, hash: Bound, actor: string, retention: bool, sharingOff: bool,
                   now: int)
    : Result<Files, Error>
  {
    match Validated(f, code, id)
    case Failure(e) => Failure(e)
    case Success(r) =>
      if r.bound.plan.mode.Live? && !retention then Failure(RetentionUnknown)
      else if r.bound.plan.mode.Live? && !sharingOff then Failure(SharingUnknown)
      else if !r.state.Prepared? || hash != r.bound || !(r.created <= now < r.expires) then Failure(ApprovalRejected)
      else if !PriceFresh(r.bound.plan, now) then Failure(PriceExpired)
      else
        var until := if now + APPROVAL < r.expires then now + APPROVAL else r.expires;
        Success(f.(records := f.records[id := r.(state := Approved,
                                                 approval := Some(Approval(actor, hash, retention, sharingOff, now,
                                                                           until)))]))
  }

  function Reserve(f: Files, mode: Mode, now: int): Result<Files, Error> {
    var l := if LedgerOf(f, mode).Some? then LedgerOf(f, mode).value else Ledger(map[], now);
    var amount := if Day(now) in l.days then l.days[Day(now)] else 0;
    if now < l.lastAt then Failure(ClockMovedBackwards)
    else if !(0 <= amount <= DAILY_CENTS - RESERVE_CENTS) then Failure(BudgetLimit)
    else Success(SetLedger(f, mode, Ledger(l.days[Day(now) := amount + RESERVE_CENTS], now)))
  }

  predicate ApprovedNow(r: Record, now: int)
    requires r.Record?
  {
    && r.state.Approved? && r.approval.Some? && r.approval.value.bound == r.bound
    && r.approval.value.at <= now < r.approval.value.expires
  }

  /** How a call of run ends before anything is sent. */
  datatype Start =
    | Refused(error: Error)
    | Interrupted(files: Files)        // an earlier send is unknown: parked, and refused
    | Finished                          // the stored outcome is returned
    | Reserved(files: Files)            // ten cents are taken; marking and sending follow

  function Begin(f: Files, code: Code, id: nat, transport: Option<Transport>, now: int): Start {
    if transport.None? then Refused(NotEnabled)
    else
      match Validated(f, code, id)
      case Failure(e) => Refused(e)
      case Success(r) =>
        var plan := r.bound.plan;
        if transport.value.mode != plan.mode || (plan.mode.Live? && transport.value.credential != plan.credential)
        then Refused(PlanMismatch)
        else if r.state.Sending?
        then Interrupted(f.(records :=
                            f.records[id := r.(state := NeedsReview,
                                               reason := Some("projection_interrupted_unknown"))]))
        else if r.state.Failed? || r.state.NeedsReview? then Finished
        else if !ApprovedNow(r, now) then Refused(NotApproved)
        else if plan.mode.Live? && !r.approval.value.retention then Refused(RetentionUnknown)
        else if plan.mode.Live? && !r.approval.value.sharingOff then Refused(SharingUnknown)
        else if !PriceFresh(plan, now) then Refused(PriceExpired)
        else
          match Reserve(f, plan.mode, now)
          case Failure(e) => Refused(e)
          case Success(g) => Reserved(g)
  }

  /** The write between reserving and sending. */
  function Mark(f: Files, id: nat): Files
    requires id in f.records && f.records[id].Record?
  {
    f.(records := f.records[id := f.records[id].(state := Sending)])
  }

  /** A report or a model failure waits for review, anything else failed. */
  predicate Closing(state: State) { state.NeedsReview? || state.Failed? }

  /** The write after sending. */
  function Close(f: Files, id: nat, state: State, reason: string): Files
    requires id in f.records && f.records[id].Record?
  {
    f.(records := f.records[id := f.records[id].(state := state, reason := Some(reason))])
  }

  function Bury(r: Record, now: int): Record { if r.Record? && r.expires <= now then Tombstone(r.bound, now) else r }

  function Buried(records: map<nat, Record>, now: int): map<nat, Record> {
    map id | id in records :: Bury(records[id], now)
  }

  /** One file of a purge. */
  function PurgeRecord(f: Files, id: nat, now: int): Files {
    if id in f.records then f.(records := f.records[id := Bury(f.records[id], now)]) else f
  }

  /** One ledger of a purge: days go when they are 90 days old. */
  function PurgeLedger(f: Files, mode: Mode, now: int): Result<Files, Error> {
    match LedgerOf(f, mode)
    case None => Success(f)
    case Some(l) =>
      if now < l.lastAt then Failure(ClockMovedBackwards)
      else Success(SetLedger(f, mode, l.(days := map d | d in l.days && Day(now) - d < LEDGER_DAYS :: l.days[d])))
  }

  /** A whole purge: every expired record, then both ledgers. */
  function Purge(f: Files, now: int): (Files, Option<Error>) {
    var g := f.(records := Buried(f.records, now));
    match PurgeLedger(g, Mock, now)
    case Failure(e) => (g, Some(e))
    case Success(h) =>
      match PurgeLedger(h, Live, now)
      case Failure(e) => (h, Some(e))
      case Success(k) => (k, None)
  }
}
