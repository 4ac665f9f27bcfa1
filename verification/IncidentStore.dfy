/**
 The run store as the program has it: an object over its run directories and its index, with the repair
 loop, and an investigation as one sequence of file writes and its handlers.
 */
module IncidentStore {
  import opened Wrappers
  import opened Incidents
  import opened IncidentsLaws

  /** How the analyser, or the budget check before it, ends. */
  datatype Answer = Answered(o: Outcome) | Raised(f: Fault)

  datatype Ending = Returned(report: Option<Report>) | Refused(error: Error) | Stopped(status: Status, reason: string)

  class IncidentStore {
    var runs: map<RunKey, Run>
    var index: map<RequestId, Entry>

    function View(): Store
      reads this
    {
      Store(runs, index)
    }

    ghost predicate Valid()
      reads this
    {
      StoreOk(View())
    }

    constructor ()
      ensures Valid() && View() == START.store
    {
      runs, index := map[], map[];
    }

    /** The change is made in memory, then the metadata file is replaced. */
    method Transition(k: RunKey, m: Meta, status: Status, reason: Option<string>) returns (m2: Meta)
      requires k in runs
      modifies this`runs
      ensures m2 == Changed(m, status, reason)
      ensures runs == old(runs)[k := old(runs)[k].(meta := Some(m2))]
    {
      m2 := m.(status := status, reason := reason);
      m2 := m2.(history := m2.history + [status]);
      runs := runs[k := runs[k].(meta := Some(m2))];
    }

    /** One run of the repair loop. */
    method Repair(k: RunKey, ghost todo: set<RunKey>)
      requires Inv(World(View(), Repairing(todo), [])) && k in todo
      modifies this
      ensures Inv(World(View(), Repairing(todo - {k}), []))
      ensures k in old(runs) && runs == old(runs)[k := RepairedRun(old(runs)[k])]
      ensures forall q :: q in old(index) ==> q in index && index[q] == old(index)[q]
    {
      ghost var w := World(View(), Repairing(todo), []);
      FixStatusKeepsInv(w, k);
      ghost var v := Step(w, FixStatus(k));
      FixIndexKeepsInv(v, k);
      var m := runs[k].meta.value;
      if IsActive(m.status) {
        m := Transition(k, m, Failed, Some("interrupted"));
      }
      assert runs == v.store.runs;
      if m.input.request !in index {
        index := index[m.input.request := Entry(m.input, k)];
      }
      assert Step(v, FixIndex(k)) == World(View(), Repairing(todo - {k}), []);
    }

    /** Repairs every run with metadata: interrupted ones failed, and each one is indexed. */
    method Reconcile()
      requires Valid()
      modifies this
      ensures Valid() && AllSettledBut(View(), {})
      ensures runs == AllRepaired(old(runs))
      ensures forall q :: q in old(index) ==> q in index && index[q] == old(index)[q]
    {
      var todo := set k | k in runs && runs[k].meta.Some?;
      while todo != {}
        invariant Inv(World(View(), Repairing(todo), []))
        invariant runs.Keys == old(runs).Keys
        invariant forall k :: k in runs ==> runs[k] == if k in todo then old(runs)[k] else RepairedRun(old(runs)[k])
        invariant forall q :: q in old(index) ==> q in index && index[q] == old(index)[q]
        decreases |todo|
      {
        var k :| k in todo;
        Repair(k, todo);
        todo := todo - {k};
      }
      assert runs == AllRepaired(old(runs));
    }

    /** What was asked before: a stored run, always readable, or nothing. */
    method FindRequest(q: RequestId) returns (r: Option<Result<Option<Report>, Error>>)
      requires Valid()
      modifies this
      ensures Valid() && AllSettledBut(View(), {})
      ensures r.Some? <==> exists k :: k in WithMeta(View()) && RequestOf(View(), k) == q
      ensures r.Some? ==> r.value.Success? && q in index && index[q].key in runs
                          && r.value == ReadRecord(runs[index[q].key], index[q].key)
    {
      Reconcile();
      r := None;
      if q in index {
        assert EntryOk(View(), q);
        var k := index[q].key;
        StoredRunsCanBeRead(runs[k], k);
        r := Some(ReadRecord(runs[k], k));
      } else {
        forall k | k in WithMeta(View()) ensures RequestOf(View(), k) != q {
          assert Settled(View(), k);
        }
      }
    }

    /** The sequence of writes of one investigation and its handlers, when nothing stops the process. */
    method InvestigateBundle(x: Input, k: RunKey, budget: bool, answer: Answer) returns (e: Ending)
      requires Valid() && Admissible(x) && k !in runs
      requires answer.Raised? ==> !answer.f.BudgetLimit? && (answer.f.AiError? ==> x.mode == Ai)
      modifies this
      ensures Valid() && AllSettledBut(View(), {})
      ensures if HasRun(old(View()), x.request)
              then && runs == AllRepaired(old(runs))
                   && forall q :: q in WithMeta(old(View())) && RequestOf(old(View()), q) == x.request ==>
                        var was := old(runs)[q];
                        e == if was.meta.value.input != x then Refused(Contradiction)
                             else Returned(if EndedWell(was.meta.value.status) then was.report else None)
              else && runs == AllRepaired(old(runs))[k := Concluded(x, k, budget, answer)]
                   && x.request in index && index[x.request] == Entry(x, k)
                   && e == EndingOf(Concluded(x, k, budget, answer))
    {
      Reconcile();
      SameRequests(old(View()), View(), x.request);
      if x.request in index {
        assert EntryOk(View(), x.request);
        var entry := index[x.request];
        TheEarlierRun(old(View()), View(), x.request);
        if entry.input != x { return Refused(Contradiction); }
        StoredRunsCanBeRead(runs[entry.key], entry.key);
        ReadRunReport(runs[entry.key], entry.key);
        return Returned(ReadRecord(runs[entry.key], entry.key).value);
      }
      ghost var s := View();
      e := Record(x, k, budget, answer);
      ConcludedIsOk(x, k, budget, answer);
      NewRunKeepsStore(s, x, k, runs[k]);
    }

    /** The first writes: the inputs, then the metadata that makes the run exist, then its index entry. */
    method Create(x: Input, k: RunKey) returns (m: Meta)
      requires k !in runs
      modifies this
      ensures m == FirstMeta(x, k)
      ensures runs == old(runs)[k := Created(x, k, m)] && index == old(index)[x.request := Entry(x, k)]
    {
      m := Meta(k, x, EnvelopeOf(x), Accepted, None, [Accepted]);
      runs := runs[k := NOTHING];
      if x.audit.Some? { runs := runs[k := runs[k].(audit := EnvelopeOf(x))]; }
      runs := runs[k := runs[k].(input := Some(x))];
      runs := runs[k := runs[k].(meta := Some(m))];
      index := index[x.request := Entry(x, k)];
    }

    /** All the writes, in order, for a run that does not exist yet. */
    method Record(x: Input, k: RunKey, budget: bool, answer: Answer) returns (e: Ending)
      requires k !in runs
      modifies this
      ensures runs == old(runs)[k := Concluded(x, k, budget, answer)] && index == old(index)[x.request := Entry(x, k)]
      ensures e == EndingOf(Concluded(x, k, budget, answer))
    {
      var m := Create(x, k);
      if x.mode == Ai && !budget {
        e := Recover(x, k, m, BudgetLimit);
        return;
      }
      m := Transition(k, m, Validating, None);
      m := Transition(k, m, Analyzing, None);
      assert runs == old(runs)[k := Created(x, k, m)];
      if answer.Raised? {
        e := Recover(x, k, m, answer.f);
      } else if !UsableAnswer(x, k, answer.o) {
        e := Recover(x, k, m, Other);
      } else {
        e := Report(x, k, m, answer.o);
      }
    }

    /** The report's files, and last the status that promises them. */
    method Report(x: Input, k: RunKey, m: Meta, o: Outcome) returns (e: Ending)
      requires k in runs
      modifies this`runs
      ensures runs == old(runs)[k := Delivered(old(runs)[k], x, k, m, o)] && e == Returned(Some(o.report))
    {
      if o.delivered.Some? {
        runs := runs[k := runs[k].(tools := Some(Tools(k, x.bundle, o.delivered.value)))];
      }
      runs := runs[k := runs[k].(report := Some(o.report))];
      runs := runs[k := runs[k].(markdown := Some(o.report))];
      var incomplete := x.audit.Some? && o.report.partial;
      var m2 := Transition(k, m, if incomplete then Partial else Completed,
                           if incomplete then Some("collection_incomplete") else None);
      e := Returned(Some(o.report));
    }

    /** The handlers: what they write after a fault. */
    method Recover(x: Input, k: RunKey, m: Meta, f: Fault) returns (e: Ending)
      requires k in runs
      modifies this`runs
      ensures runs == old(runs)[k := Recovered(old(runs)[k], x, k, m, f)]
      ensures e == EndingOf(Recovered(old(runs)[k], x, k, m, f))
    {
      var status, reason := Failed, "";
      match f {
        case Interrupt => status, reason := Cancelled, "user_cancelled";
        case AiError(why, replay, cancelled) =>
          if replay.Some? { runs := runs[k := runs[k].(tools := Some(Tools(k, x.bundle, replay.value)))]; }
          reason := why;
          if replay.Some? && cancelled { status := Cancelled; }
        case BudgetLimit => reason := "daily_budget_limit";
        case Other => reason := if x.mode == Ai then "ai_error" else "rules_error";
      }
      var m2: Meta;
      if x.mode == Ai && status == Failed && reason in FALLBACK {
        var r := FallbackReport(x, k);
        runs := runs[k := runs[k].(report := Some(r))];
        runs := runs[k := runs[k].(markdown := Some(r))];
        m2 := Transition(k, m, Partial, Some(reason));
        return Returned(Some(r));
      }
      m2 := Transition(k, m, status, Some(reason));
      e := Stopped(status, reason);
    }
  }

  // ---- what an undisturbed investigation stores ----

  predicate UsableAnswer(x: Input, k: RunKey, o: Outcome) { Usable(Begin(k, x), o) }

  /** The handler's writes, from the run as it was when the fault was raised. */
  function Recovered(run: Run, x: Input, k: RunKey, m: Meta, f: Fault): Run {
    var replay := if f.AiError? then f.replay else None;
    var run2 := if replay.Some? then run.(tools := Some(Tools(k, x.bundle, replay.value))) else run;
    var status := if f.Interrupt? || (replay.Some? && f.cancelled) then Cancelled else Failed;
    var reason := match f
                  case Interrupt => "user_cancelled"
                  case AiError(why, _, _) => why
                  case BudgetLimit => "daily_budget_limit"
                  case Other => if x.mode == Ai then "ai_error" else "rules_error";
    if x.mode == Ai && status == Failed && reason in FALLBACK
    then run2.(report := Some(FallbackReport(x, k)), markdown := Some(FallbackReport(x, k)),
               meta := Some(Changed(m, Partial, Some(reason))))
    else run2.(meta := Some(Changed(m, status, Some(reason))))
  }

  function FirstMeta(x: Input, k: RunKey): Meta { Meta(k, x, EnvelopeOf(x), Accepted, None, [Accepted]) }

  /** The metadata when the analyser is asked. */
  function AskedMeta(x: Input, k: RunKey): Meta {
    Changed(Changed(FirstMeta(x, k), Validating, None), Analyzing, None)
  }

  function Created(x: Input, k: RunKey, m: Meta): Run { Run(EnvelopeOf(x), Some(x), Some(m), None, None, None) }

  function Concluded(x: Input, k: RunKey, budget: bool, answer: Answer): Run {
    if x.mode == Ai && !budget then Recovered(Created(x, k, FirstMeta(x, k)), x, k, FirstMeta(x, k), BudgetLimit)
    else
      var m := AskedMeta(x, k);
      if answer.Raised? then Recovered(Created(x, k, m), x, k, m, answer.f)
      else if !UsableAnswer(x, k, answer.o) then Recovered(Created(x, k, m), x, k, m, Other)
      else Delivered(Created(x, k, m), x, k, m, answer.o)
  }

  /** The writes after a usable answer. */
  function Delivered(run: Run, x: Input, k: RunKey, m: Meta, o: Outcome): Run {
    var incomplete := x.audit.Some? && o.report.partial;
    run.(tools := if o.delivered.Some? then Some(Tools(k, x.bundle, o.delivered.value)) else run.tools,
         report := Some(o.report), markdown := Some(o.report),
         meta := Some(Changed(m, if incomplete then Partial else Completed,
                              if incomplete then Some("collection_incomplete") else None)))
  }

  /** What the caller gets, read off the run that was stored. */
  function EndingOf(run: Run): Ending {
    if run.meta.None? then Refused(MissingFile)
    else if run.meta.value.status == Completed || run.meta.value.status == Partial then Returned(run.report)
    else Stopped(run.meta.value.status, if run.meta.value.reason.Some? then run.meta.value.reason.value else "")
  }

  /** It is a run that ended with a legal history and can be read back. */
  lemma ConcludedIsOk(x: Input, k: RunKey, budget: bool, answer: Answer)
    requires Admissible(x) && (answer.Raised? ==> !answer.f.BudgetLimit? && (answer.f.AiError? ==> x.mode == Ai))
    ensures var run := Concluded(x, k, budget, answer);
            && RunOk(run, k) && run.meta.Some? && run.meta.value.input == x && !IsActive(run.meta.value.status)
            && HistoryOk(run.meta.value) && ReadRecord(run, k).Success?
  {
    var run := Concluded(x, k, budget, answer);
    ConcludedHistory(x, k, budget, answer);
    StoredRunsCanBeRead(run, k);
  }

  lemma AskedMetaIsLegal(x: Input, k: RunKey)
    ensures HistoryOk(FirstMeta(x, k)) && HistoryOk(AskedMeta(x, k)) && AskedMeta(x, k).status == Analyzing
  {
    ChangedHistory(FirstMeta(x, k), Validating, None);
    ChangedHistory(Changed(FirstMeta(x, k), Validating, None), Analyzing, None);
  }

  lemma RecoveredHistory(run: Run, x: Input, k: RunKey, m: Meta, f: Fault)
    requires HistoryOk(m) && IsActive(m.status)
    ensures var r := Recovered(run, x, k, m, f); r.meta.Some? && HistoryOk(r.meta.value)
  {
    var m2 := Recovered(run, x, k, m, f).meta.value;
    ChangedHistory(m, m2.status, m2.reason);
  }

  lemma ConcludedHistory(x: Input, k: RunKey, budget: bool, answer: Answer)
    ensures var run := Concluded(x, k, budget, answer); run.meta.Some? && HistoryOk(run.meta.value)
  {
    AskedMetaIsLegal(x, k);
    var m := AskedMeta(x, k);
    if x.mode == Ai && !budget {
      RecoveredHistory(Created(x, k, FirstMeta(x, k)), x, k, FirstMeta(x, k), BudgetLimit);
    } else if answer.Raised? {
      RecoveredHistory(Created(x, k, m), x, k, m, answer.f);
    } else if !UsableAnswer(x, k, answer.o) {
      RecoveredHistory(Created(x, k, m), x, k, m, Other);
    } else {
      var m2 := Delivered(Created(x, k, m), x, k, m, answer.o).meta.value;
      ChangedHistory(m, m2.status, m2.reason);
    }
  }

  lemma NewRunKeepsStore(s: Store, x: Input, k: RunKey, run: Run)
    requires StoreOk(s) && AllSettledBut(s, {}) && x.request !in s.index && k !in s.runs
    requires RunOk(run, k) && run.meta.Some? && run.meta.value.input == x && !IsActive(run.meta.value.status)
    ensures var u := PutIndex(PutRun(s, k, run), x, k); StoreOk(u) && AllSettledBut(u, {})
  {
    var u := PutIndex(PutRun(s, k, run), x, k);
    assert WithMeta(u) == WithMeta(s) + {k};
    forall q | q in u.index ensures EntryOk(u, q) {
      if q in s.index { assert EntryOk(s, q); }
    }
    forall j | j in WithMeta(u) ensures Settled(u, j) {
      if j != k { assert Settled(s, j); }
    }
    forall i, j | i in WithMeta(u) && j in WithMeta(u) && RequestOf(u, i) == RequestOf(u, j) ensures i == j {
      if i != k { assert Settled(s, i); }
      if j != k { assert Settled(s, j); }
      if i != k && j != k { assert RequestOf(s, i) == RequestOf(s, j); }
    }
  }

  /** Repair neither adds nor loses a request. */
  lemma SameRequests(s: Store, u: Store, q: RequestId)
    requires u.runs == AllRepaired(s.runs) && StoreOk(u) && AllSettledBut(u, {})
    ensures HasRun(s, q) <==> q in u.index
  {
    forall k | k in WithMeta(s) ensures k in WithMeta(u) && RequestOf(u, k) == RequestOf(s, k) && Settled(u, k) {
      assert u.runs[k] == RepairedRun(s.runs[k]);
    }
    if q in u.index {
      assert EntryOk(u, q);
      var k := u.index[q].key;
      assert u.runs[k] == RepairedRun(s.runs[k]);
      assert k in WithMeta(s) && RequestOf(s, k) == q;
    }
  }

  predicate EndedWell(s: Status) { s == Completed || s == Partial }

  /** What is read of a run is its own report if it ended well, and nothing otherwise. */
  lemma ReadRunReport(run: Run, k: RunKey)
    requires ReadRecord(run, k).Success?
    ensures run.meta.Some?
    ensures ReadRecord(run, k).value == if EndedWell(run.meta.value.status) then run.report else None
  {
  }

  /** The run the index names after repair is the one that had the request before. */
  lemma TheEarlierRun(s: Store, u: Store, q: RequestId)
    requires u.runs == AllRepaired(s.runs) && StoreOk(u) && AllSettledBut(u, {}) && q in u.index
    ensures u.index[q].key in u.runs
    ensures forall k :: k in WithMeta(s) && RequestOf(s, k) == q ==>
              && k == u.index[q].key && s.runs[k].meta.value.input == u.index[q].input
              && u.runs[k].meta.Some? && u.runs[k].report == s.runs[k].report
              && (EndedWell(u.runs[k].meta.value.status) <==> EndedWell(s.runs[k].meta.value.status))
  {
    assert EntryOk(u, q);
    forall k | k in WithMeta(s) && RequestOf(s, k) == q
      ensures k == u.index[q].key && s.runs[k].meta.value.input == u.index[q].input {
      assert u.runs[k] == RepairedRun(s.runs[k]);
      assert k in WithMeta(u) && RequestOf(u, k) == q && Settled(u, k);
    }
  }

  function RepairedRun(r: Run): Run { if r.meta.Some? then r.(meta := Some(Repaired(r.meta.value))) else r }

  function AllRepaired(runs: map<RunKey, Run>): map<RunKey, Run> { map k | k in runs :: RepairedRun(runs[k]) }
}
