/**
 What the class of the run store does is what the steps of an investigation do when nothing else happens:
 played from the start of a run, with the one fault its caller meets, they leave exactly the concluded run.
 */
module IncidentPlay {
  import opened Wrappers
  import opened Incidents
  import opened IncidentsLaws
  import S = IncidentStore

  /** Steps left, at most. */
  function Rank(s: Stage): nat {
    match s
    case WriteAudit => 20
    case WriteInput => 19
    case WriteMeta => 18
    case WriteIndex => 17
    case Budget => 16
    case SetValidating => 15
    case PutValidating => 14
    case SetAnalyzing => 13
    case PutAnalyzing => 12
    case Analyze => 11
    case PutTools => 10
    case PutReport => 9
    case PutMarkdown => 8
    case SetFinal => 7
    case PutFinal => 6
    case Leave => 0
    case RescueTools(_, _) => 5
    case RescueReport(_) => 4
    case RescueMarkdown(_) => 3
    case SetEnd(_, _) => 2
    case PutEnd => 1
  }

  predicate Sensible(mode: Mode, answer: S.Answer) {
    answer.Raised? ==> !answer.f.BudgetLimit? && (answer.f.AiError? ==> mode == Ai)
  }

  predicate Fair(t: Task) { Reported(t.stage) ==> t.report.Some? }

  /** The fault the budget check or the analyser raises here, if any. */
  function FaultAt(t: Task, budget: bool, answer: S.Answer): Option<Fault> {
    if t.stage.Budget? && t.input.mode == Ai && !budget then Some(Fault.BudgetLimit)
    else if t.stage.Analyze? && answer.Raised? then Some(answer.f)
    else None
  }

  const SILENCE := Outcome(Report(Input(0, Rules, "", Bundle(false, {}, ""), None), RunKey(0, 0), Rules, OtherEngine,
                                  false, {}, ""), None)

  function Said(answer: S.Answer): Outcome { if answer.Answered? then answer.o else SILENCE }

  function EventAt(t: Task, budget: bool, answer: S.Answer): Event {
    var f := FaultAt(t, budget, answer);
    if f.Some? then Raise(f.value) else Advance(Said(answer))
  }

  function After(t: Task, budget: bool, answer: S.Answer): Task {
    var f := FaultAt(t, budget, answer);
    if f.Some? then Handle(t, f.value) else Next(t, Said(answer))
  }

  function Put(run: Run, t: Task, budget: bool, answer: S.Answer): Run {
    if FaultAt(t, budget, answer).Some? then run else Written(run, t)
  }

  lemma AfterRanks(t: Task, budget: bool, answer: S.Answer)
    requires !Last(t.stage) && Fair(t)
    ensures var u := After(t, budget, answer);
            Rank(u.stage) < Rank(t.stage) && Fair(u) && u.key == t.key && u.input == t.input
  {
  }

  /** The run as the remaining steps leave it. */
  function FinalRun(run: Run, t: Task, budget: bool, answer: S.Answer): Run
    requires Fair(t)
    decreases Rank(t.stage)
  {
    if Last(t.stage) then Written(run, t)
    else
      AfterRanks(t, budget, answer);
      FinalRun(Put(run, t, budget, answer), After(t, budget, answer), budget, answer)
  }

  function FinalStore(s: Store, t: Task, budget: bool, answer: S.Answer): Store
    requires Fair(t) && t.key in s.runs
  {
    PutRun(if Unindexed(t.stage) then PutIndex(s, t.input, t.key)
           else s, t.key, FinalRun(s.runs[t.key], t, budget, answer))
  }

  lemma EventIsPossible(w: World, budget: bool, answer: S.Answer)
    requires w.session.Working? && w.session.task.key in w.store.runs && Sensible(w.session.task.input.mode, answer)
    ensures Possible(w, EventAt(w.session.task, budget, answer))
  {
  }

  lemma StepIs(w: World, budget: bool, answer: S.Answer)
    requires w.session.Working? && !Last(w.session.task.stage) && w.session.task.key in w.store.runs
    requires Sensible(w.session.task.input.mode, answer)
    ensures var t := w.session.task;
            && Possible(w, EventAt(t, budget, answer))
            && var v := Step(w, EventAt(t, budget, answer));
               && v.session == Working(After(t, budget, answer)) && t.key in v.store.runs
               && v.store.runs == w.store.runs[t.key := Put(w.store.runs[t.key], t, budget, answer)]
               && v.store.index == if t.stage.WriteIndex? then w.store.index[t.input.request := Entry(t.input, t.key)]
                  else w.store.index
  {
    EventIsPossible(w, budget, answer);
  }

  lemma UnindexedAfter(t: Task, budget: bool, answer: S.Answer)
    requires !Last(t.stage)
    ensures Unindexed(After(t, budget, answer).stage) <==> Unindexed(t.stage) && !t.stage.WriteIndex?
  {
  }

  /** The events that play the rest of an investigation, each one possible when its turn comes. */
  lemma {:induction false} Played(w: World, budget: bool, answer: S.Answer) returns (es: seq<Event>)
    requires w.session.Working? && w.session.task.key in w.store.runs && Fair(w.session.task)
    requires Sensible(w.session.task.input.mode, answer)
    ensures AllPossible(w, es) && Play(w, es).session.Idle?
    ensures Play(w, es).store == FinalStore(w.store, w.session.task, budget, answer)
    decreases Rank(w.session.task.stage)
  {
    var t := w.session.task;
    var e := EventAt(t, budget, answer);
    if Last(t.stage) {
      es := [Advance(Said(answer))];
      LastStep(w, Said(answer));
    } else {
      AfterRanks(t, budget, answer);
      StepIs(w, budget, answer);
      UnindexedAfter(t, budget, answer);
      var rest := Played(Step(w, e), budget, answer);
      es := [e] + rest;
      assert es[1..] == rest;
    }
  }

  lemma LastStep(w: World, o: Outcome)
    requires w.session.Working? && w.session.task.key in w.store.runs && Last(w.session.task.stage)
    ensures AllPossible(w, [Advance(o)]) && Play(w, [Advance(o)]).session.Idle?
    ensures Play(w, [Advance(o)]).store
            == PutRun(w.store, w.session.task.key, Written(w.store.runs[w.session.task.key], w.session.task))
  {
    assert [Advance(o)][1..] == [];
  }

  // ---- what those steps write ----

  lemma EndWrites(run: Run, t: Task, budget: bool, answer: S.Answer)
    requires t.stage.SetEnd?
    ensures FinalRun(run, t, budget, answer)
            == run.(meta := Some(Changed(t.meta, t.stage.status, Some(t.stage.reason))))
  {
    var u := After(t, budget, answer);
    assert FinalRun(run, t, budget, answer) == FinalRun(run, u, budget, answer) == Written(run, u);
  }

  lemma RescueWrites(run: Run, t: Task, budget: bool, answer: S.Answer)
    requires t.stage.RescueReport?
    ensures var r := FallbackReport(t.input, t.key);
            FinalRun(run, t, budget, answer)
            == run.(report := Some(r), markdown := Some(r),
                    meta := Some(Changed(t.meta, Partial, Some(t.stage.reason))))
  {
    var r := FallbackReport(t.input, t.key);
    var u := After(t, budget, answer);
    var v := After(u, budget, answer);
    assert FinalRun(run, t, budget, answer) == FinalRun(run.(report := Some(r)), u, budget, answer);
    assert FinalRun(run.(report := Some(r)), u, budget, answer)
      == FinalRun(run.(report := Some(r), markdown := Some(r)), v, budget, answer);
    EndWrites(run.(report := Some(r), markdown := Some(r)), v, budget, answer);
  }

  /** The handlers, as steps, leave what the class's handler leaves. */
  lemma HandlerWrites(run: Run, t: Task, f: Fault, budget: bool, answer: S.Answer)
    ensures FinalRun(run, Handle(t, f), budget, answer) == S.Recovered(run, t.input, t.key, t.meta, f)
  {
    var u := Handle(t, f);
    if u.stage.RescueTools? {
      var v := After(u, budget, answer);
      assert FinalRun(run, u, budget, answer) == FinalRun(run.(tools := u.tools), v, budget, answer);
      if v.stage.SetEnd? { EndWrites(run.(tools := u.tools), v, budget, answer); }
      else { RescueWrites(run.(tools := u.tools), v, budget, answer); }
    } else if u.stage.RescueReport? {
      RescueWrites(run, u, budget, answer);
    } else {
      EndWrites(run, u, budget, answer);
    }
  }

  /** The task when the report is to be written. */
  function Reporting(x: Input, k: RunKey, o: Outcome): Task {
    Task(k, x, S.AskedMeta(x, k), PutTools, if o.delivered.Some? then Some(Tools(k, x.bundle, o.delivered.value))
         else None, Some(o.report))
  }

  lemma ReportWrites(run: Run, x: Input, k: RunKey, o: Outcome, budget: bool, answer: S.Answer)
    ensures FinalRun(run, Reporting(x, k, o), budget, answer) == S.Delivered(run, x, k, S.AskedMeta(x, k), o)
  {
    var t := Reporting(x, k, o);
    var r1 := Written(run, t);
    var t1 := t.(stage := PutReport);
    assert FinalRun(run, t, budget, answer) == FinalRun(r1, t1, budget, answer);
    var r2 := r1.(report := Some(o.report));
    var t2 := t.(stage := PutMarkdown);
    assert FinalRun(r1, t1, budget, answer) == FinalRun(r2, t2, budget, answer);
    var r3 := r2.(markdown := Some(o.report));
    FinalWrites(r3, t.(stage := SetFinal), budget, answer);
    assert FinalRun(r2, t2, budget, answer) == FinalRun(r3, t.(stage := SetFinal), budget, answer);
  }

  lemma FinalWrites(run: Run, t: Task, budget: bool, answer: S.Answer)
    requires t.stage.SetFinal? && t.report.Some?
    ensures FinalRun(run, t, budget, answer) == run.(meta := Some(Changed(t.meta, FinalStatus(t), FinalReason(t))))
  {
    var u := After(t, budget, answer);
    var v := u.(stage := Leave);
    var stored := run.(meta := Some(u.meta));
    assert FinalRun(run, t, budget, answer) == FinalRun(run, u, budget, answer);
    assert FinalRun(run, u, budget, answer) == FinalRun(stored, v, budget, answer) == Written(stored, v);
  }

  /** The task when the budget is checked, and when the analyser is asked. */
  function Checking(x: Input, k: RunKey): Task { Task(k, x, S.FirstMeta(x, k), Stage.Budget, None, None) }

  function Asking(x: Input, k: RunKey): Task { Task(k, x, S.AskedMeta(x, k), Analyze, None, None) }

  lemma CreationWrites(x: Input, k: RunKey, budget: bool, answer: S.Answer)
    ensures FinalRun(NOTHING, Begin(k, x), budget, answer)
            == FinalRun(S.Created(x, k, S.FirstMeta(x, k)), Checking(x, k), budget, answer)
  {
    var t := Begin(k, x);
    var t1, r1 := t.(stage := WriteInput), NOTHING.(audit := EnvelopeOf(x));
    assert FinalRun(NOTHING, t, budget, answer) == FinalRun(r1, t1, budget, answer);
    var t2, r2 := t.(stage := WriteMeta), r1.(input := Some(x));
    assert FinalRun(r1, t1, budget, answer) == FinalRun(r2, t2, budget, answer);
    MetaWrites(x, k, r2, t2, budget, answer);
  }

  lemma MetaWrites(x: Input, k: RunKey, run: Run, t: Task, budget: bool, answer: S.Answer)
    requires t == Begin(k, x).(stage := WriteMeta) && run == NOTHING.(audit := EnvelopeOf(x), input := Some(x))
    ensures FinalRun(run, t, budget, answer)
            == FinalRun(S.Created(x, k, S.FirstMeta(x, k)), Checking(x, k), budget, answer)
  {
    var t1, r1 := t.(stage := WriteIndex), S.Created(x, k, S.FirstMeta(x, k));
    assert FinalRun(run, t, budget, answer) == FinalRun(r1, t1, budget, answer);
    assert FinalRun(r1, t1, budget, answer) == FinalRun(r1, Checking(x, k), budget, answer);
  }

  /** The task when the first status was stored. */
  function Validated(x: Input, k: RunKey): Task {
    Task(k, x, Changed(S.FirstMeta(x, k), Validating, None), SetAnalyzing, None, None)
  }

  lemma AskingWrites(x: Input, k: RunKey, budget: bool, answer: S.Answer)
    requires x.mode == Ai ==> budget
    ensures FinalRun(S.Created(x, k, S.FirstMeta(x, k)), Checking(x, k), budget, answer)
            == FinalRun(S.Created(x, k, S.AskedMeta(x, k)), Asking(x, k), budget, answer)
  {
    ValidatingWrites(x, k, budget, answer);
    AnalyzingWrites(x, k, budget, answer);
  }

  lemma ValidatingWrites(x: Input, k: RunKey, budget: bool, answer: S.Answer)
    requires x.mode == Ai ==> budget
    ensures FinalRun(S.Created(x, k, S.FirstMeta(x, k)), Checking(x, k), budget, answer)
            == FinalRun(S.Created(x, k, Validated(x, k).meta), Validated(x, k), budget, answer)
  {
    var t, run := Checking(x, k), S.Created(x, k, S.FirstMeta(x, k));
    var t1, t2 := t.(stage := SetValidating), Validated(x, k).(stage := PutValidating);
    assert FinalRun(run, t, budget, answer) == FinalRun(run, t1, budget, answer);
    assert FinalRun(run, t1, budget, answer) == FinalRun(run, t2, budget, answer);
    var stored := run.(meta := Some(t2.meta));
    assert FinalRun(run, t2, budget, answer) == FinalRun(stored, Validated(x, k), budget, answer);
  }

  lemma AnalyzingWrites(x: Input, k: RunKey, budget: bool, answer: S.Answer)
    ensures FinalRun(S.Created(x, k, Validated(x, k).meta), Validated(x, k), budget, answer)
            == FinalRun(S.Created(x, k, S.AskedMeta(x, k)), Asking(x, k), budget, answer)
  {
    var t, run := Validated(x, k), S.Created(x, k, Validated(x, k).meta);
    var t1 := Asking(x, k).(stage := PutAnalyzing);
    assert FinalRun(run, t, budget, answer) == FinalRun(run, t1, budget, answer);
    var stored := run.(meta := Some(t1.meta));
    assert FinalRun(run, t1, budget, answer) == FinalRun(stored, Asking(x, k), budget, answer);
  }

  lemma AnswerWrites(x: Input, k: RunKey, budget: bool, answer: S.Answer)
    ensures var run := S.Created(x, k, S.AskedMeta(x, k)); var m := S.AskedMeta(x, k);
            FinalRun(run, Asking(x, k), budget, answer)
            == if answer.Raised? then S.Recovered(run, x, k, m, answer.f)
               else if !S.UsableAnswer(x, k, answer.o) then S.Recovered(run, x, k, m, Fault.Other)
               else S.Delivered(run, x, k, m, answer.o)
  {
    var run, t := S.Created(x, k, S.AskedMeta(x, k)), Asking(x, k);
    assert FinalRun(run, t, budget, answer) == FinalRun(run, After(t, budget, answer), budget, answer);
    if answer.Raised? {
      HandlerWrites(run, t, answer.f, budget, answer);
    } else if !S.UsableAnswer(x, k, answer.o) {
      HandlerWrites(run, t, Fault.Other, budget, answer);
    } else {
      ReportWrites(run, x, k, answer.o, budget, answer);
    }
  }

  lemma StepsConclude(x: Input, k: RunKey, budget: bool, answer: S.Answer)
    ensures FinalRun(NOTHING, Begin(k, x), budget, answer) == S.Concluded(x, k, budget, answer)
  {
    CreationWrites(x, k, budget, answer);
    var run, t := S.Created(x, k, S.FirstMeta(x, k)), Checking(x, k);
    if x.mode == Ai && !budget {
      assert FinalRun(run, t, budget, answer) == FinalRun(run, Handle(t, Fault.BudgetLimit), budget, answer);
      HandlerWrites(run, t, Fault.BudgetLimit, budget, answer);
    } else {
      AskingWrites(x, k, budget, answer);
      AnswerWrites(x, k, budget, answer);
    }
  }

  /**
   From a repaired store, the events of an undisturbed investigation of a new request are possible one after
   the other and leave what the class's method leaves: the concluded run, indexed, and the lock free.
   */
  lemma ConcludedIsPlayed(w: World, x: Input, k: RunKey, budget: bool, answer: S.Answer) returns (es: seq<Event>)
    requires w.session.Ready? && Admissible(x) && k !in w.store.runs && x.request !in w.store.index
             && Sensible(x.mode, answer)
    ensures AllPossible(w, es) && Play(w, es).session.Idle?
    ensures Play(w, es).store == PutIndex(PutRun(w.store, k, S.Concluded(x, k, budget, answer)), x, k)
  {
    var v := Step(w, Start(x, k));
    var rest := Played(v, budget, answer);
    StepsConclude(x, k, budget, answer);
    es := [Start(x, k)] + rest;
    assert es[1..] == rest;
    assert v.store.runs[k := S.Concluded(x, k, budget, answer)] == w.store.runs[k := S.Concluded(x, k, budget, answer)];
  }

  /** A fault raised at any moment of the guarded part and handled leaves what the class's handler leaves. */
  lemma RecoveredIsPlayed(w: World, f: Fault) returns (es: seq<Event>)
    requires w.session.Working? && w.session.task.key in w.store.runs && CanRaise(w.session.task, f)
    ensures AllPossible(w, es) && Play(w, es).session.Idle?
    ensures var t := w.session.task;
            Play(w, es).store == PutRun(w.store, t.key, S.Recovered(w.store.runs[t.key], t.input, t.key, t.meta, f))
  {
    var t := w.session.task;
    var v := Step(w, Raise(f));
    var rest := Played(v, true, S.Answered(SILENCE));
    HandlerWrites(w.store.runs[t.key], t, f, true, S.Answered(SILENCE));
    es := [Raise(f)] + rest;
    assert es[1..] == rest;
  }

  /** The status and reason a handled fault ends in. */
  predicate EndsIn(m: Meta, mode: Mode, f: Fault) {
    match f
    case Interrupt => m.status == Cancelled && m.reason == Some("user_cancelled")
    case BudgetLimit => m.status == Partial && m.reason == Some("daily_budget_limit")
    case Other => m.status == Failed && m.reason == Some(if mode == Ai then "ai_error" else "rules_error")
    case AiError(why, replay, cancelled) =>
      && m.reason == Some(why)
      && m.status == if replay.Some? && cancelled then Cancelled else if why in FALLBACK then Partial else Failed
  }

  /**
   Over every run: whatever is raised in the guarded part and handled ends the run in the status and reason of
   that fault; the fallback report is stored exactly if it ends as partial, and the tool audit a model left with it.
   */
  lemma FaultDecidesTheEnd(w: World, f: Fault) returns (es: seq<Event>)
    requires w.session.Working? && w.session.task.key in w.store.runs && CanRaise(w.session.task, f)
    ensures AllPossible(w, es) && Play(w, es).session.Idle? && w.session.task.key in Play(w, es).store.runs
    ensures var t := w.session.task; var was, run := w.store.runs[t.key], Play(w, es).store.runs[t.key];
            && run.meta.Some? && EndsIn(run.meta.value, t.input.mode, f)
            && run.meta.value.history == t.meta.history + [run.meta.value.status]
               && run.meta.value.input == t.meta.input
            && run.input == was.input && run.audit == was.audit
            && run.tools == (if f.AiError? && f.replay.Some? then Some(Tools(t.key, t.input.bundle, f.replay.value))
                             else was.tools)
            && (if run.meta.value.status == Partial
                then run.report == Some(FallbackReport(t.input, t.key)) && run.markdown == run.report
                else run.report == was.report && run.markdown == was.markdown)
  {
    es := RecoveredIsPlayed(w, f);
  }
}
