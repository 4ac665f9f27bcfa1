/**
 Every run of the store: lock, repair, investigate or read, with a crash or a raised fault between any
 two steps, repair included.  `analyzed` is history: the requests whose analyser was asked.
 */
module IncidentsLaws {
  import opened Wrappers
  import opened Incidents

  datatype Session = Idle | Repairing(todo: set<RunKey>) | Ready | Working(task: Task)

  datatype World = World(store: Store, session: Session, analyzed: seq<RequestId>)

  datatype Event =
    | Lock
    | FixStatus(key: RunKey)
    | FixIndex(key: RunKey)
    | Settle
    | Start(x: Input, key: RunKey)
    | Advance(o: Outcome)
    | Raise(f: Fault)
    | Crash  // or any other end of the lock holder

  function WithMeta(s: Store): set<RunKey> { set k | k in s.runs && s.runs[k].meta.Some? }

  predicate Possible(w: World, e: Event) {
    match e
    case Lock => w.session.Idle?
    case FixStatus(k) => w.session.Repairing? && k in w.session.todo && k in WithMeta(w.store)
    case FixIndex(k) =>
      && w.session.Repairing? && k in w.session.todo && k in WithMeta(w.store)
      && !IsActive(w.store.runs[k].meta.value.status)
    case Settle => w.session.Repairing? && w.session.todo == {}
    case Start(x, k) => w.session.Ready? && Admissible(x) && k !in w.store.runs
    case Advance(_) => w.session.Working? && w.session.task.key in w.store.runs
    case Raise(f) => w.session.Working? && CanRaise(w.session.task, f)
    case Crash => true
  }

  function PutRun(s: Store, k: RunKey, r: Run): Store { s.(runs := s.runs[k := r]) }

  function PutIndex(s: Store, x: Input, k: RunKey): Store { s.(index := s.index[x.request := Entry(x, k)]) }

  function Step(w: World, e: Event): World
    requires Possible(w, e)
  {
    match e
    case Lock => w.(session := Repairing(WithMeta(w.store)))
    case FixStatus(k) =>
      var r := w.store.runs[k];
      w.(store := PutRun(w.store, k, r.(meta := Some(Repaired(r.meta.value)))))
    case FixIndex(k) =>
      var m := w.store.runs[k].meta.value;
      w.(store := if m.input.request in w.store.index then w.store else PutIndex(w.store, m.input, k),
         session := Repairing(w.session.todo - {k}))
    case Settle => w.(session := Ready)
    case Start(x, k) =>
      if x.request in w.store.index then w.(session := Idle)
      else w.(store := PutRun(w.store, k, NOTHING), session := Working(Begin(k, x)))
    case Advance(o) =>
      var t := w.session.task;
      var put := PutRun(w.store, t.key, Written(w.store.runs[t.key], t));
      World(if t.stage.WriteIndex? then PutIndex(put, t.input, t.key) else put,
            if Last(t.stage) then Idle else Working(Next(t, o)),
            if t.stage.Analyze? then w.analyzed + [t.input.request] else w.analyzed)
    case Raise(f) => w.(session := Working(Handle(w.session.task, f)))
    case Crash => w.(session := Idle)
  }

  // ---- every stored run, at every moment ----

  /** A finished run has everything its reader needs: input, report, rendering, and the tool audit of a model report. */
  predicate Durable(run: Run, key: RunKey)
    requires run.meta.Some?
  {
    var m := run.meta.value;
    m.status == Completed || m.status == Partial ==>
      && run.report.Some? && run.markdown == run.report
      && (if run.report.value.engine == FallbackRules && run.report.value.mode != m.input.mode
          then && run.report.value == FallbackReport(m.input, key) && m.status == Partial && m.input.mode == Ai
               && m.reason.Some? && m.reason.value in FALLBACK
          else Finished(run.report.value, run.tools, m, key))
  }

  /** The report of the unfaulted path, with the status and reason it leads to. */
  predicate Finished(r: Report, tools: Option<Tools>, m: Meta, key: RunKey) {
    && r.mode == m.input.mode && (m.input.bundle.captured ==> r == CapturedReport(m.input, key))
    && (r.mode == Ai ==> tools.Some? && tools.value.key == key && tools.value.bundle == m.input.bundle)
    && Fits(r, m.input, key, if r.mode == Ai then Some(tools.value.delivered) else None)
    && (m.status == Partial <==> m.input.audit.Some? && r.partial)
    && m.reason == (if m.status == Partial then Some("collection_incomplete") else None)
  }

  predicate RunOk(run: Run, key: RunKey) {
    run.meta.Some? ==>
      var m := run.meta.value;
      && m.key == key && Admissible(m.input) && m.envelope == EnvelopeOf(m.input)
      && run.input == Some(m.input) && run.audit == m.envelope && Durable(run, key)
  }

  /** Every stored run can be read back, whatever its state. */
  lemma StoredRunsCanBeRead(run: Run, key: RunKey)
    requires RunOk(run, key) && run.meta.Some?
    ensures ReadRecord(run, key).Success?
    ensures ReadRecord(run, key).value.Some? <==> run.meta.value.status == Completed || run.meta.value.status == Partial
    ensures ReadRecord(run, key).value.Some? ==> ReadRecord(run, key).value == run.report
  {
  }

  // ---- the investigation under way ----

  predicate Early(s: Stage) { s.WriteAudit? || s.WriteInput? || s.WriteMeta? }

  predicate Reported(s: Stage) {
    s.PutTools? || s.PutReport? || s.PutMarkdown? || s.SetFinal? || s.PutFinal? || s.Leave?
  }

  predicate Ending(s: Stage) { s.SetEnd? || s.PutEnd? }

  /** What has been written by each stage. */
  predicate FilesOk(run: Run, t: Task) {
    && (!t.stage.WriteAudit? ==> run.audit == EnvelopeOf(t.input))
    && (!t.stage.WriteAudit? && !t.stage.WriteInput? ==> run.input == Some(t.input))
    && (Early(t.stage) <==> run.meta.None?)
    && (run.meta.Some? ==> run.meta.value.input == t.input)
    && (run.meta.Some? && !Ending(t.stage) && !t.stage.Leave? ==> IsActive(run.meta.value.status))
  }

  predicate ToolsOk(t: Task) {
    && (t.input.mode == Ai <==> t.tools.Some?)
    && (t.tools.Some? ==> t.tools.value.key == t.key && t.tools.value.bundle == t.input.bundle)
  }

  predicate ReportOk(run: Run, t: Task) {
    Reported(t.stage) ==>
      && t.report.Some? && ToolsOk(t)
      && Usable(t, Outcome(t.report.value, if t.tools.Some? then Some(t.tools.value.delivered) else None))
      && (!t.stage.PutTools? && t.tools.Some? ==> run.tools == t.tools)
      && (!t.stage.PutTools? && !t.stage.PutReport? ==> run.report == t.report)
      && (t.stage.SetFinal? || t.stage.PutFinal? || t.stage.Leave? ==> run.markdown == t.report)
      && (t.stage.PutFinal? ==> t.meta.status == FinalStatus(t) && t.meta.reason == FinalReason(t))
  }

  predicate Rescued(run: Run, t: Task, status: Status, reason: Option<string>) {
    || status == Failed || status == Cancelled
    || (&& status == Partial && t.input.mode == Ai && reason.Some? && reason.value in FALLBACK
        && run.report == Some(FallbackReport(t.input, t.key)) && run.markdown == run.report)
  }

  predicate RescueOk(run: Run, t: Task) {
    && (t.stage.RescueReport? ==> t.input.mode == Ai && t.stage.reason in FALLBACK)
    && (t.stage.RescueMarkdown? ==> t.input.mode == Ai && t.stage.reason in FALLBACK
                                    && run.report == Some(FallbackReport(t.input, t.key)))
    && (t.stage.SetEnd? ==> Rescued(run, t, t.stage.status, Some(t.stage.reason)))
    && (t.stage.PutEnd? ==> Rescued(run, t, t.meta.status, t.meta.reason))
  }

  predicate TaskOk(run: Run, t: Task) {
    && t.meta.key == t.key && t.meta.input == t.input && t.meta.envelope == EnvelopeOf(t.input) && Admissible(t.input)
    && (!t.stage.PutFinal? && !t.stage.Leave? && !Ending(t.stage) ==> IsActive(t.meta.status))
    && FilesOk(run, t) && ReportOk(run, t) && RescueOk(run, t)
  }

  lemma WriteKeepsRunOk(run: Run, t: Task)
    requires RunOk(run, t.key) && TaskOk(run, t)
    ensures RunOk(Written(run, t), t.key)
  {
    if t.stage.PutFinal? {
      FinalIsFinished(run, t);
    }
  }

  lemma FinalIsFinished(run: Run, t: Task)
    requires TaskOk(run, t) && t.stage.PutFinal?
    ensures Finished(t.report.value, run.tools, t.meta, t.key)
  {
  }

  lemma StepKeepsFiles(run: Run, t: Task, o: Outcome)
    requires TaskOk(run, t) && !Last(t.stage)
    ensures FilesOk(Written(run, t), Next(t, o))
  {
  }

  lemma StepKeepsReport(run: Run, t: Task, o: Outcome)
    requires TaskOk(run, t) && !Last(t.stage)
    ensures ReportOk(Written(run, t), Next(t, o))
  {
  }

  lemma StepKeepsRescue(run: Run, t: Task, o: Outcome)
    requires TaskOk(run, t) && !Last(t.stage)
    ensures RescueOk(Written(run, t), Next(t, o))
  {
  }

  lemma StepKeepsTask(run: Run, t: Task, o: Outcome)
    requires TaskOk(run, t) && !Last(t.stage)
    ensures TaskOk(Written(run, t), Next(t, o))
  {
    StepKeepsFiles(run, t, o);
    StepKeepsReport(run, t, o);
    StepKeepsRescue(run, t, o);
  }

  lemma HandleKeepsTask(run: Run, t: Task, f: Fault)
    requires TaskOk(run, t) && CanRaise(t, f)
    ensures TaskOk(run, Handle(t, f))
  {
  }

  // ---- the store as a whole ----

  function RequestOf(s: Store, k: RunKey): RequestId
    requires k in WithMeta(s)
  {
    s.runs[k].meta.value.input.request
  }

  predicate RunsOk(s: Store) { forall k {:trigger RunOk(s.runs[k], k)} :: k in s.runs ==> RunOk(s.runs[k], k) }

  predicate EntryOk(s: Store, q: RequestId)
    requires q in s.index
  {
    var e := s.index[q];
    e.input.request == q && e.key in WithMeta(s) && s.runs[e.key].meta.value.input == e.input
  }

  predicate IndexOk(s: Store) { forall q {:trigger EntryOk(s, q)} :: q in s.index ==> EntryOk(s, q) }

  /** One run with metadata for each request. */
  predicate OneRunEach(s: Store) {
    forall j, k :: j in WithMeta(s) && k in WithMeta(s) && RequestOf(s, j) == RequestOf(s, k) ==> j == k
  }

  predicate Settled(s: Store, k: RunKey)
    requires k in WithMeta(s)
  {
    !IsActive(s.runs[k].meta.value.status) && RequestOf(s, k) in s.index
  }

  predicate AllSettledBut(s: Store, except: set<RunKey>) {
    forall k {:trigger Settled(s, k)} :: k in WithMeta(s) && k !in except ==> Settled(s, k)
  }

  predicate Unindexed(t: Stage) { Early(t) || t.WriteIndex? }

  predicate WorkOk(s: Store, t: Task) {
    && t.key in s.runs && TaskOk(s.runs[t.key], t) && AllSettledBut(s, {t.key})
    && (Unindexed(t.stage) <==> t.input.request !in s.index)
    && (Early(t.stage) ==> forall k :: k in WithMeta(s) ==> RequestOf(s, k) != t.input.request)
  }

  predicate SessionOk(s: Store, c: Session) {
    match c
    case Idle => true
    case Repairing(todo) => todo <= WithMeta(s) && AllSettledBut(s, todo)
    case Ready => AllSettledBut(s, {})
    case Working(t) => WorkOk(s, t)
  }

  predicate StoreOk(s: Store) { RunsOk(s) && IndexOk(s) && OneRunEach(s) }

  predicate Inv(w: World) { StoreOk(w.store) && SessionOk(w.store, w.session) }

  lemma FixStatusKeepsInv(w: World, k: RunKey)
    requires Inv(w) && Possible(w, FixStatus(k))
    ensures Inv(Step(w, FixStatus(k)))
  {
    var v := Step(w, FixStatus(k));
    assert RunOk(w.store.runs[k], k);
    assert WithMeta(v.store) == WithMeta(w.store);
    forall q | q in v.store.index ensures EntryOk(v.store, q) {
      assert EntryOk(w.store, q);
    }
    forall j | j in WithMeta(v.store) && j !in v.session.todo ensures Settled(v.store, j) {
      assert Settled(w.store, j);
    }
    forall i, j | i in WithMeta(v.store) && j in WithMeta(v.store) && RequestOf(v.store, i) == RequestOf(v.store, j)
      ensures i == j {
      assert RequestOf(w.store, i) == RequestOf(w.store, j);
    }
  }

  lemma IndexGrows(s: Store, x: Input, k: RunKey)
    requires StoreOk(s) && x.request !in s.index && k in WithMeta(s) && s.runs[k].meta.value.input == x
    ensures StoreOk(PutIndex(s, x, k))
  {
    var u := PutIndex(s, x, k);
    assert WithMeta(u) == WithMeta(s);
    forall q | q in u.index ensures EntryOk(u, q) {
      if q in s.index { assert EntryOk(s, q); }
    }
    forall i, j | i in WithMeta(u) && j in WithMeta(u) && RequestOf(u, i) == RequestOf(u, j) ensures i == j {
      assert RequestOf(s, i) == RequestOf(s, j);
    }
  }

  lemma FixIndexKeepsInv(w: World, k: RunKey)
    requires Inv(w) && Possible(w, FixIndex(k))
    ensures Inv(Step(w, FixIndex(k)))
  {
    var v := Step(w, FixIndex(k));
    var x := w.store.runs[k].meta.value.input;
    if x.request !in w.store.index { IndexGrows(w.store, x, k); }
    assert WithMeta(v.store) == WithMeta(w.store);
    forall j | j in WithMeta(v.store) && j !in v.session.todo ensures Settled(v.store, j) {
      if j != k { assert Settled(w.store, j); }
    }
  }

  lemma StartKeepsInv(w: World, x: Input, k: RunKey)
    requires Inv(w) && Possible(w, Start(x, k))
    ensures Inv(Step(w, Start(x, k)))
  {
    var v := Step(w, Start(x, k));
    if x.request !in w.store.index {
      assert WithMeta(v.store) == WithMeta(w.store);
      forall q | q in v.store.index ensures EntryOk(v.store, q) {
        assert EntryOk(w.store, q);
      }
      forall j | j in WithMeta(v.store) ensures Settled(v.store, j) && RequestOf(v.store, j) != x.request {
        assert Settled(w.store, j);
      }
      forall i, j | i in WithMeta(v.store) && j in WithMeta(v.store) && RequestOf(v.store, i) == RequestOf(v.store, j)
        ensures i == j {
        assert RequestOf(w.store, i) == RequestOf(w.store, j);
      }
    }
  }

  function AfterWrite(s: Store, t: Task): Store
    requires t.key in s.runs
  {
    PutRun(s, t.key, Written(s.runs[t.key], t))
  }

  /** The write gives the run metadata only where it had some, or where it is the first to have it. */
  lemma WriteKeepsRequest(s: Store, t: Task)
    requires WorkOk(s, t)
    ensures WithMeta(AfterWrite(s, t)) == if t.stage.WriteMeta? then WithMeta(s) + {t.key} else WithMeta(s)
    ensures t.key in WithMeta(AfterWrite(s, t)) ==> AfterWrite(s, t).runs[t.key].meta.value.input == t.input
  {
  }

  lemma WriteKeepsOneRun(s: Store, t: Task)
    requires OneRunEach(s) && WorkOk(s, t)
    ensures OneRunEach(AfterWrite(s, t))
  {
    var u := AfterWrite(s, t);
    WriteKeepsRequest(s, t);
    forall i, j | i in WithMeta(u) && j in WithMeta(u) && RequestOf(u, i) == RequestOf(u, j) ensures i == j {
      if i in WithMeta(s) && j in WithMeta(s) { assert RequestOf(s, i) == RequestOf(s, j); }
    }
  }

  lemma WriteKeepsIndex(s: Store, t: Task)
    requires IndexOk(s) && WorkOk(s, t)
    ensures IndexOk(AfterWrite(s, t)) && AllSettledBut(AfterWrite(s, t), {t.key})
  {
    var u := AfterWrite(s, t);
    WriteKeepsRequest(s, t);
    forall q | q in u.index ensures EntryOk(u, q) {
      assert EntryOk(s, q);
    }
    forall j | j in WithMeta(u) && j != t.key ensures Settled(u, j) {
      assert Settled(s, j);
    }
  }

  /** Writing a file of the run at work leaves every other run and the index as they are. */
  lemma PutRunKeepsStore(s: Store, t: Task)
    requires StoreOk(s) && WorkOk(s, t)
    ensures StoreOk(AfterWrite(s, t)) && AllSettledBut(AfterWrite(s, t), {t.key})
  {
    WriteKeepsRunOk(s.runs[t.key], t);
    WriteKeepsOneRun(s, t);
    WriteKeepsIndex(s, t);
  }

  /** The store after a step of an investigation, its index entry included. */
  function Advanced(s: Store, t: Task): Store
    requires t.key in s.runs
  {
    if t.stage.WriteIndex? then PutIndex(AfterWrite(s, t), t.input, t.key) else AfterWrite(s, t)
  }

  lemma AdvanceIs(w: World, o: Outcome)
    requires Possible(w, Advance(o))
    ensures var t := w.session.task; var v := Step(w, Advance(o));
            v.store == Advanced(w.store, t) && v.session == if Last(t.stage) then Idle else Working(Next(t, o))
  {
  }

  lemma AdvanceKeepsStore(s: Store, t: Task)
    requires StoreOk(s) && WorkOk(s, t)
    ensures StoreOk(Advanced(s, t)) && AllSettledBut(Advanced(s, t), {t.key})
  {
    PutRunKeepsStore(s, t);
    if t.stage.WriteIndex? {
      IndexGrows(AfterWrite(s, t), t.input, t.key);
      forall j | j in WithMeta(Advanced(s, t)) && j != t.key ensures Settled(Advanced(s, t), j) {
        assert Settled(AfterWrite(s, t), j);
      }
    }
  }

  lemma EarlyNext(t: Task, o: Outcome)
    requires Early(Next(t, o).stage)
    ensures t.stage.WriteAudit? || t.stage.WriteInput?
  {
  }

  /** Until its metadata is written, a run is the only one of its request. */
  lemma AdvanceKeepsEarly(s: Store, t: Task)
    requires WorkOk(s, t) && (t.stage.WriteAudit? || t.stage.WriteInput?)
    ensures forall k :: k in WithMeta(Advanced(s, t)) ==> RequestOf(Advanced(s, t), k) != t.input.request
  {
    WriteKeepsRequest(s, t);
    forall k | k in WithMeta(AfterWrite(s, t)) ensures RequestOf(AfterWrite(s, t), k) != t.input.request {
      assert k in WithMeta(s);
    }
  }

  lemma AdvanceKeepsIndexed(s: Store, t: Task, o: Outcome)
    requires WorkOk(s, t) && !Last(t.stage)
    ensures Unindexed(Next(t, o).stage) <==> t.input.request !in Advanced(s, t).index
  {
  }

  lemma AdvanceKeepsWork(s: Store, t: Task, o: Outcome)
    requires StoreOk(s) && WorkOk(s, t) && !Last(t.stage)
    ensures WorkOk(Advanced(s, t), Next(t, o))
  {
    AdvanceKeepsStore(s, t);
    StepKeepsTask(s.runs[t.key], t, o);
    AdvanceKeepsIndexed(s, t, o);
    NextIsSame(t, o);
    if Early(Next(t, o).stage) {
      EarlyNext(t, o);
      AdvanceKeepsEarly(s, t);
    }
  }

  lemma NextIsSame(t: Task, o: Outcome)
    ensures Next(t, o).key == t.key && Next(t, o).input == t.input
  {
  }

  lemma AdvanceKeepsInv(w: World, o: Outcome)
    requires Inv(w) && Possible(w, Advance(o))
    ensures Inv(Step(w, Advance(o)))
  {
    AdvanceIs(w, o);
    AdvanceKeepsStore(w.store, w.session.task);
    if !Last(w.session.task.stage) { AdvanceKeepsWork(w.store, w.session.task, o); }
  }

  lemma RaiseKeepsInv(w: World, f: Fault)
    requires Inv(w) && Possible(w, Raise(f))
    ensures Inv(Step(w, Raise(f)))
  {
    HandleKeepsTask(w.store.runs[w.session.task.key], w.session.task, f);
  }

  lemma StepKeepsInv(w: World, e: Event)
    requires Inv(w) && Possible(w, e)
    ensures Inv(Step(w, e))
  {
    match e
    case FixStatus(k) => FixStatusKeepsInv(w, k);
    case FixIndex(k) => FixIndexKeepsInv(w, k);
    case Start(x, k) => StartKeepsInv(w, x, k);
    case Advance(o) => AdvanceKeepsInv(w, o);
    case Raise(f) => RaiseKeepsInv(w, f);
    case _ =>
  }

  predicate AllPossible(w: World, es: seq<Event>)
    decreases |es|
  {
    es == [] || (Possible(w, es[0]) && AllPossible(Step(w, es[0]), es[1..]))
  }

  function Play(w: World, es: seq<Event>): World
    requires AllPossible(w, es)
    decreases |es|
  {
    if es == [] then w else Play(Step(w, es[0]), es[1..])
  }

  const START := World(Store(map[], map[]), Idle, [])

  lemma {:induction false} PlayKeepsInv(w: World, es: seq<Event>)
    requires Inv(w) && AllPossible(w, es)
    ensures Inv(Play(w, es))
    decreases |es|
  {
    if es != [] {
      StepKeepsInv(w, es[0]);
      PlayKeepsInv(Step(w, es[0]), es[1..]);
    }
  }

  ghost predicate Reachable(w: World) {
    exists es {:trigger AllPossible(START, es)} :: AllPossible(START, es) && w == Play(START, es)
  }

  lemma ReachableInv(w: World)
    requires Reachable(w)
    ensures Inv(w)
  {
    var es :| AllPossible(START, es) && w == Play(START, es);
    PlayKeepsInv(START, es);
  }

  // ---- what that gives ----

  /** Wherever the last holder stopped, once the lock is held and repaired the index and the runs with metadata
      are in one-to-one correspondence, and no run is left active. */
  lemma RepairRestoresTheStore(w: World, k: RunKey, q: RequestId)
    requires Reachable(w) && w.session.Ready?
    ensures k in WithMeta(w.store) ==>
              && RequestOf(w.store, k) in w.store.index && w.store.index[RequestOf(w.store, k)].key == k
              && !IsActive(w.store.runs[k].meta.value.status)
    ensures q in w.store.index ==>
              && w.store.index[q].key in WithMeta(w.store) && RequestOf(w.store, w.store.index[q].key) == q
              && w.store.index[q].input == w.store.runs[w.store.index[q].key].meta.value.input
  {
    ReachableInv(w);
    if q in w.store.index { assert EntryOk(w.store, q); }
    if k in WithMeta(w.store) {
      assert Settled(w.store, k);
      assert EntryOk(w.store, RequestOf(w.store, k));
    }
  }

  /** What a resubmission gets back. */
  function Resubmit(s: Store, x: Input): Option<Result<Option<Report>, Error>>
    requires IndexOk(s)
  {
    if x.request !in s.index then None
    else
      assert EntryOk(s, x.request);
      var e := s.index[x.request];
      if e.input != x then Some(Failure(Contradiction)) else Some(ReadRecord(s.runs[e.key], e.key))
  }

  /** Submitting the same input again returns the run it made, readable, and starts nothing. */
  lemma ResubmissionReturnsTheRun(w: World, k: RunKey, spare: RunKey)
    requires Reachable(w) && w.session.Ready? && k in WithMeta(w.store) && spare !in w.store.runs
    ensures var x := w.store.runs[k].meta.value.input;
            && Possible(w, Start(x, spare)) && Step(w, Start(x, spare)) == w.(session := Idle) && IndexOk(w.store)
            && Resubmit(w.store, x) == Some(ReadRecord(w.store.runs[k], k)) && Resubmit(w.store, x).value.Success?
  {
    ReachableInv(w);
    RepairRestoresTheStore(w, k, RequestOf(w.store, k));
    assert RunOk(w.store.runs[k], k);
    StoredRunsCanBeRead(w.store.runs[k], k);
  }

  /** Any other input under the same request is refused as contradictory, and starts nothing either. */
  lemma AnotherInputIsRefused(w: World, k: RunKey, y: Input, spare: RunKey)
    requires Reachable(w) && w.session.Ready? && k in WithMeta(w.store) && spare !in w.store.runs
    requires Admissible(y) && y.request == RequestOf(w.store, k) && y != w.store.runs[k].meta.value.input
    ensures Possible(w, Start(y, spare)) && Step(w, Start(y, spare)) == w.(session := Idle)
    ensures IndexOk(w.store) && Resubmit(w.store, y) == Some(Failure(Contradiction))
  {
    ReachableInv(w);
    RepairRestoresTheStore(w, k, RequestOf(w.store, k));
  }

  /** At every moment, a run stored as finished can be read back with its report. */
  lemma FinishedMeansDurable(w: World, k: RunKey)
    requires Reachable(w) && k in WithMeta(w.store)
    requires w.store.runs[k].meta.value.status == Completed || w.store.runs[k].meta.value.status == Partial
    ensures var r := w.store.runs[k];
            && r.input == Some(r.meta.value.input) && r.report.Some? && r.markdown == r.report
            && (r.report.value.mode == Ai ==> r.tools.Some?) && ReadRecord(r, k) == Success(r.report)
  {
    ReachableInv(w);
    assert RunOk(w.store.runs[k], k);
    StoredRunsCanBeRead(w.store.runs[k], k);
  }

  // ---- no request is analysed twice ----

  predicate Unasked(s: Stage) {
    Unindexed(s) || s.Budget? || s.SetValidating? || s.PutValidating? || s.SetAnalyzing? || s.PutAnalyzing?
      || s.Analyze?
  }

  predicate HasRun(s: Store, q: RequestId) { exists k :: k in WithMeta(s) && RequestOf(s, k) == q }

  predicate AskedOk(w: World) {
    AskedOnce(w) && forall q {:trigger HasRun(w.store, q)} :: q in w.analyzed ==> HasRun(w.store, q)
  }

  /** Metadata stays, with its input. */
  lemma RunsStay(w: World, e: Event, k: RunKey)
    requires Inv(w) && Possible(w, e) && k in WithMeta(w.store)
    ensures k in WithMeta(Step(w, e).store)
    ensures Step(w, e).store.runs[k].meta.value.input == w.store.runs[k].meta.value.input
  {
    if e.Advance? && w.session.task.key == k { WriteKeepsRequest(w.store, w.session.task); }
  }

  lemma HasRunStays(w: World, e: Event, q: RequestId)
    requires Inv(w) && Possible(w, e) && HasRun(w.store, q)
    ensures HasRun(Step(w, e).store, q)
  {
    var k :| k in WithMeta(w.store) && RequestOf(w.store, k) == q;
    RunsStay(w, e, k);
    assert RequestOf(Step(w, e).store, k) == q;
  }

  lemma NewRequestWasNotAsked(w: World, x: Input)
    requires Inv(w) && AskedOk(w) && w.session.Ready? && x.request !in w.store.index
    ensures x.request !in w.analyzed
  {
    forall k | k in WithMeta(w.store) ensures RequestOf(w.store, k) != x.request {
      assert Settled(w.store, k);
    }
    assert !HasRun(w.store, x.request);
  }

  lemma AskedHaveRuns(w: World, e: Event, q: RequestId)
    requires Inv(w) && AskedOk(w) && Possible(w, e) && q in Step(w, e).analyzed
    ensures HasRun(Step(w, e).store, q)
  {
    if q in w.analyzed {
      HasRunStays(w, e, q);
    } else {
      var v := Step(w, e);
      var k := w.session.task.key;
      RunsStay(w, e, k);
      assert RequestOf(v.store, k) == q;
    }
  }

  predicate AskedOnce(w: World) {
    && (forall i, j :: 0 <= i < j < |w.analyzed| ==> w.analyzed[i] != w.analyzed[j])
    && (w.session.Working? && Unasked(w.session.task.stage) ==> w.session.task.input.request !in w.analyzed)
  }

  lemma UnaskedBefore(t: Task, o: Outcome)
    requires !Last(t.stage) && Unasked(Next(t, o).stage)
    ensures Unasked(t.stage) && !t.stage.Analyze? && Next(t, o).input == t.input
  {
  }

  lemma AdvanceAsksOnce(w: World, o: Outcome)
    requires AskedOk(w) && Possible(w, Advance(o))
    ensures AskedOnce(Step(w, Advance(o)))
  {
    var t := w.session.task;
    if !Last(t.stage) && Unasked(Next(t, o).stage) { UnaskedBefore(t, o); }
  }

  lemma HandledIsAsked(t: Task, f: Fault)
    requires CanRaise(t, f)
    ensures !Unasked(Handle(t, f).stage)
  {
  }

  lemma AskedOnlyOnce(w: World, e: Event)
    requires Inv(w) && AskedOk(w) && Possible(w, e)
    ensures AskedOnce(Step(w, e))
  {
    if e.Advance? {
      AdvanceAsksOnce(w, e.o);
    } else if e.Raise? {
      HandledIsAsked(w.session.task, e.f);
    } else if e.Start? && e.x.request !in w.store.index {
      NewRequestWasNotAsked(w, e.x);
    }
  }

  lemma StepKeepsAsked(w: World, e: Event)
    requires Inv(w) && AskedOk(w) && Possible(w, e)
    ensures AskedOk(Step(w, e))
  {
    forall q | q in Step(w, e).analyzed ensures HasRun(Step(w, e).store, q) {
      AskedHaveRuns(w, e, q);
    }
    AskedOnlyOnce(w, e);
  }

  lemma {:induction false} PlayKeepsAsked(w: World, es: seq<Event>)
    requires Inv(w) && AskedOk(w) && AllPossible(w, es)
    ensures AskedOk(Play(w, es))
    decreases |es|
  {
    if es != [] {
      StepKeepsInv(w, es[0]);
      StepKeepsAsked(w, es[0]);
      PlayKeepsAsked(Step(w, es[0]), es[1..]);
    }
  }

  /**
   Over every run, however often it crashed and was submitted again, the analyser is asked at most once for a
   request.
   */
  lemma AnalysedAtMostOnce(w: World, i: nat, j: nat)
    requires Reachable(w) && i < j < |w.analyzed|
    ensures w.analyzed[i] != w.analyzed[j]
  {
    var es :| AllPossible(START, es) && w == Play(START, es);
    PlayKeepsAsked(START, es);
  }

  // ---- the history of a run, when no fault is raised after its final status was set ----

  predicate LegalStep(a: Status, b: Status) {
    || (a == Accepted && b == Validating) || (a == Validating && b == Analyzing) || (a == Analyzing && b == Completed)
    || (IsActive(a) && (b == Partial || b == Failed || b == Cancelled))
  }

  predicate HistoryOk(m: Meta) {
    && m.history != [] && m.history[0] == Accepted && m.history[|m.history| - 1] == m.status
    && forall i :: 0 < i < |m.history| ==> LegalStep(m.history[i - 1], m.history[i])
  }

  /** The window in which a raised fault finds the final status already set. */
  predicate Late(s: Stage) { s.PutFinal? || s.Leave? }

  predicate CleanStep(w: World, e: Event) { e.Raise? && w.session.Working? ==> !Late(w.session.task.stage) }

  predicate MemoryOk(run: Run, t: Task) {
    && HistoryOk(t.meta)
    && (Early(t.stage) || t.stage.WriteIndex? || t.stage.Budget? || t.stage.SetValidating? ==>
        t.meta.status == Accepted)
    && (t.stage.PutValidating? || t.stage.SetAnalyzing? ==> t.meta.status == Validating)
    && (t.stage.PutAnalyzing? || t.stage.Analyze? || t.stage.PutTools? || t.stage.PutReport? || t.stage.PutMarkdown?
        || t.stage.SetFinal?
        ==> t.meta.status == Analyzing)
    && (t.stage.SetEnd? ==> IsActive(t.meta.status) && t.stage.status in {Partial, Failed, Cancelled})
    && (Ending(t.stage) && run.meta.Some? ==> IsActive(run.meta.value.status))
    && (t.stage.Leave? ==> run.meta == Some(t.meta) && t.meta.status in {Completed, Partial})
  }

  predicate StoredHistory(s: Store, k: RunKey)
    requires k in WithMeta(s)
  {
    HistoryOk(s.runs[k].meta.value)
  }

  predicate CleanOk(w: World) {
    && HistoriesOk(w.store)
    && (w.session.Working? && w.session.task.key in w.store.runs ==>
          MemoryOk(w.store.runs[w.session.task.key], w.session.task))
  }

  lemma ChangedHistory(m: Meta, status: Status, reason: Option<string>)
    requires HistoryOk(m) && LegalStep(m.status, status)
    ensures HistoryOk(Changed(m, status, reason))
  {
  }

  lemma AdvanceKeepsMemory(run: Run, t: Task, o: Outcome)
    requires TaskOk(run, t) && MemoryOk(run, t) && !Last(t.stage)
    ensures MemoryOk(Written(run, t), Next(t, o))
  {
    AdvanceKeepsTaskHistory(run, t, o);
  }

  lemma AdvanceKeepsTaskHistory(run: Run, t: Task, o: Outcome)
    requires TaskOk(run, t) && MemoryOk(run, t) && !Last(t.stage)
    ensures HistoryOk(Next(t, o).meta)
  {
    if t.stage.SetValidating? {
      ChangedHistory(t.meta, Validating, None);
    } else if t.stage.SetAnalyzing? {
      ChangedHistory(t.meta, Analyzing, None);
    } else if t.stage.SetFinal? {
      ChangedHistory(t.meta, FinalStatus(t), FinalReason(t));
    } else if t.stage.SetEnd? {
      ChangedHistory(t.meta, t.stage.status, Some(t.stage.reason));
    }
  }

  lemma RaiseKeepsMemory(run: Run, t: Task, f: Fault)
    requires TaskOk(run, t) && MemoryOk(run, t) && CanRaise(t, f) && !Late(t.stage)
    ensures MemoryOk(run, Handle(t, f))
  {
  }

  lemma FixKeepsHistory(w: World, k: RunKey)
    requires Inv(w) && CleanOk(w) && Possible(w, FixStatus(k))
    ensures CleanOk(Step(w, FixStatus(k)))
  {
    var v := Step(w, FixStatus(k));
    forall j | j in WithMeta(v.store) ensures StoredHistory(v.store, j) {
      assert StoredHistory(w.store, j);
    }
  }

  lemma WrittenHistory(run: Run, t: Task)
    requires MemoryOk(run, t) && (run.meta.Some? ==> HistoryOk(run.meta.value))
    ensures Written(run, t).meta.Some? ==> HistoryOk(Written(run, t).meta.value)
  {
  }

  predicate HistoriesOk(s: Store) {
    forall k {:trigger StoredHistory(s, k)} :: k in WithMeta(s) ==> StoredHistory(s, k)
  }

  lemma AdvancedHistories(s: Store, t: Task)
    requires t.key in s.runs && HistoriesOk(s) && MemoryOk(s.runs[t.key], t)
    ensures HistoriesOk(Advanced(s, t))
  {
    if t.key in WithMeta(s) { assert StoredHistory(s, t.key); }
    WrittenHistory(s.runs[t.key], t);
    forall j | j in WithMeta(Advanced(s, t)) ensures StoredHistory(Advanced(s, t), j) {
      if j != t.key { assert StoredHistory(s, j); }
    }
  }

  lemma AdvanceKeepsHistory(w: World, o: Outcome)
    requires Inv(w) && CleanOk(w) && Possible(w, Advance(o))
    ensures CleanOk(Step(w, Advance(o)))
  {
    var t := w.session.task;
    AdvanceIs(w, o);
    AdvancedHistories(w.store, t);
    if !Last(t.stage) {
      AdvanceKeepsMemory(w.store.runs[t.key], t, o);
      NextIsSame(t, o);
    }
  }

  lemma StepKeepsClean(w: World, e: Event)
    requires Inv(w) && CleanOk(w) && Possible(w, e) && CleanStep(w, e)
    ensures CleanOk(Step(w, e))
  {
    if e.FixStatus? {
      FixKeepsHistory(w, e.key);
    } else if e.Advance? {
      AdvanceKeepsHistory(w, e.o);
    } else {
      if e.Raise? { RaiseKeepsMemory(w.store.runs[w.session.task.key], w.session.task, e.f); }
      OtherStepsKeepHistory(w, e);
    }
  }

  lemma OtherStepsKeepHistory(w: World, e: Event)
    requires Inv(w) && CleanOk(w) && Possible(w, e) && !e.FixStatus? && !e.Advance?
    ensures forall k {:trigger StoredHistory(Step(w, e).store, k)} :: k in WithMeta(Step(w, e).store) ==>
            StoredHistory(Step(w, e).store, k)
  {
    var v := Step(w, e);
    forall j | j in WithMeta(v.store) ensures StoredHistory(v.store, j) {
      assert StoredHistory(w.store, j);
    }
  }

  predicate AllClean(w: World, es: seq<Event>)
    requires AllPossible(w, es)
    decreases |es|
  {
    es == [] || (CleanStep(w, es[0]) && AllClean(Step(w, es[0]), es[1..]))
  }

  lemma {:induction false} PlayKeepsClean(w: World, es: seq<Event>)
    requires Inv(w) && CleanOk(w) && AllPossible(w, es) && AllClean(w, es)
    ensures CleanOk(Play(w, es))
    decreases |es|
  {
    if es != [] {
      StepKeepsInv(w, es[0]);
      StepKeepsClean(w, es[0]);
      PlayKeepsClean(Step(w, es[0]), es[1..]);
    }
  }

  /** Every stored history is a legal path from accepted that ends in the stored status. */
  lemma HistoriesAreLegal(es: seq<Event>, k: RunKey)
    requires AllPossible(START, es) && AllClean(START, es) && k in WithMeta(Play(START, es).store)
    ensures HistoryOk(Play(START, es).store.runs[k].meta.value)
  {
    PlayKeepsClean(START, es);
    assert StoredHistory(Play(START, es).store, k);
  }

  // ---- an ended run, when no fault is raised after the last write ----

  /** Faults before the last write find the stored run still active, and leave an ended one alone. */
  predicate SpareStep(w: World, e: Event) { e.Raise? && w.session.Working? ==> !w.session.task.stage.Leave? }

  predicate EndOk(run: Run, t: Task) {
    && (Ending(t.stage) && run.meta.Some? ==> IsActive(run.meta.value.status))
    && (t.stage.Leave? ==> run.meta.Some? && run.meta.value.status in {Completed, Partial})
  }

  predicate SpareOk(w: World) {
    w.session.Working? && w.session.task.key in w.store.runs ==> EndOk(w.store.runs[w.session.task.key], w.session.task)
  }

  lemma AdvanceKeepsEnd(run: Run, t: Task, o: Outcome)
    requires TaskOk(run, t) && EndOk(run, t) && !Last(t.stage)
    ensures EndOk(Written(run, t), Next(t, o))
  {
  }

  lemma RaiseKeepsEnd(run: Run, t: Task, f: Fault)
    requires TaskOk(run, t) && CanRaise(t, f) && !t.stage.Leave?
    ensures EndOk(run, Handle(t, f))
  {
  }

  lemma StepKeepsSpare(w: World, e: Event)
    requires Inv(w) && SpareOk(w) && Possible(w, e) && SpareStep(w, e)
    ensures SpareOk(Step(w, e))
  {
    if e.Advance? {
      if !Last(w.session.task.stage) { AdvanceKeepsEnd(w.store.runs[w.session.task.key], w.session.task, e.o); }
    } else if e.Raise? {
      RaiseKeepsEnd(w.store.runs[w.session.task.key], w.session.task, e.f);
    }
  }

  predicate AllSpare(w: World, es: seq<Event>)
    requires AllPossible(w, es)
    decreases |es|
  {
    es == [] || (SpareStep(w, es[0]) && AllSpare(Step(w, es[0]), es[1..]))
  }

  lemma TerminalStaysInStep(w: World, e: Event, k: RunKey)
    requires Inv(w) && SpareOk(w) && Possible(w, e) && k in WithMeta(w.store)
    requires !IsActive(w.store.runs[k].meta.value.status)
    ensures k in WithMeta(Step(w, e).store) && Step(w, e).store.runs[k].meta == w.store.runs[k].meta
  {
    if e.Advance? && w.session.task.key == k { assert FilesOk(w.store.runs[k], w.session.task); }
  }

  /** A run that ended never changes again, through faults before the last write, fallbacks, crashes and repairs. */
  lemma {:induction false} TerminalRunsNeverChange(w: World, es: seq<Event>, k: RunKey)
    requires Inv(w) && SpareOk(w) && AllPossible(w, es) && AllSpare(w, es)
    requires k in WithMeta(w.store) && !IsActive(w.store.runs[k].meta.value.status)
    ensures k in WithMeta(Play(w, es).store) && Play(w, es).store.runs[k].meta == w.store.runs[k].meta
    decreases |es|
  {
    if es != [] {
      StepKeepsInv(w, es[0]);
      StepKeepsSpare(w, es[0]);
      TerminalStaysInStep(w, es[0], k);
      TerminalRunsNeverChange(Step(w, es[0]), es[1..], k);
    }
  }

  lemma {:induction false} PlayKeepsSpare(w: World, es: seq<Event>)
    requires Inv(w) && SpareOk(w) && AllPossible(w, es) && AllSpare(w, es)
    ensures Inv(Play(w, es)) && SpareOk(Play(w, es))
    decreases |es|
  {
    if es != [] {
      StepKeepsInv(w, es[0]);
      StepKeepsSpare(w, es[0]);
      PlayKeepsSpare(Step(w, es[0]), es[1..]);
    }
  }

  /** From the empty store: whatever has ended at some moment of a run is the same at every later one. */
  lemma EndedRunsAreFinal(before: seq<Event>, after: seq<Event>, k: RunKey)
    requires AllPossible(START, before) && AllSpare(START, before)
    requires AllPossible(Play(START, before), after) && AllSpare(Play(START, before), after)
    requires k in WithMeta(Play(START, before).store) && !IsActive(Play(START, before).store.runs[k].meta.value.status)
    ensures var w := Play(START, before);
            k in WithMeta(Play(w, after).store) && Play(w, after).store.runs[k].meta == w.store.runs[k].meta
  {
    PlayKeepsSpare(START, before);
    TerminalRunsNeverChange(Play(START, before), after, k);
  }

  /** The steps of the handler after the last write, on the run and the task alone. */
  lemma LastFaultInRun(run: Run, t: Task, f: Fault, o: Outcome)
    requires EndOk(run, t) && t.stage.Leave? && CanRaise(t, f)
    ensures var h := Handle(t, f); var u := Next(h, o);
            && h.stage.SetEnd? && h.key == u.key == t.key && Written(run, h) == run
            && Written(run, u).meta == Some(u.meta) && u.meta.status in {Failed, Cancelled}
    ensures run.meta.Some? && run.meta.value.status in {Completed, Partial}
  {
    var h := Handle(t, f);
    assert h.stage.SetEnd? && h.stage.status in {Failed, Cancelled};
  }

  /**
   The window is exact: any fault raised after the last write and handled to its end turns the run that was
   stored as completed or partial into a failed or cancelled one.
   */
  lemma FaultAfterLastWriteChangesTheEnd(w: World, f: Fault, o: Outcome)
    requires Inv(w) && SpareOk(w) && w.session.Working? && w.session.task.stage.Leave? && CanRaise(w.session.task, f)
    ensures var k := w.session.task.key;
            && k in WithMeta(w.store) && w.store.runs[k].meta.value.status in {Completed, Partial}
            && Handled(w, f, o).session.Idle? && k in WithMeta(Handled(w, f, o).store)
            && Handled(w, f, o).store.runs[k].meta.value.status in {Failed, Cancelled}
  {
    var t := w.session.task;
    LastFaultInRun(w.store.runs[t.key], t, f, o);
    HandledWrites(w, f, o);
  }

  // ---- the history of a run ends twice ----

  lemma LateEndIsIllegal(m: Meta, status: Status, reason: Option<string>)
    requires HistoryOk(m) && !IsActive(m.status)
    ensures !HistoryOk(Changed(m, status, reason))
  {
    var h := Changed(m, status, reason).history;
    assert h[|h| - 2] == m.status && !LegalStep(h[|h| - 2], h[|h| - 1]);
  }

  /** The two steps of the handler, on the run and the task alone. */
  lemma LateFaultInRun(run: Run, t: Task, f: Fault, o: Outcome)
    requires TaskOk(run, t) && MemoryOk(run, t) && Late(t.stage) && CanRaise(t, f)
    ensures var h := Handle(t, f); var u := Next(h, o);
            && h.stage.SetEnd? && u.stage.PutEnd? && h.key == u.key == t.key && Written(run, h) == run
            && Written(run, u).meta == Some(u.meta) && !HistoryOk(u.meta) && u.meta.status in {Failed, Cancelled}
    ensures t.stage.Leave? ==> run.meta.Some? && run.meta.value.status in {Completed, Partial}
  {
    var h := Handle(t, f);
    assert h.stage.SetEnd? && h.meta == t.meta && h.stage.status in {Failed, Cancelled};
    LateEndIsIllegal(t.meta, h.stage.status, Some(h.stage.reason));
  }

  /** The fault raised, handled in memory and written. */
  function Handled(w: World, f: Fault, o: Outcome): World
    requires Possible(w, Raise(f)) && Late(w.session.task.stage) && w.session.task.key in w.store.runs
  {
    Step(Step(Step(w, Raise(f)), Advance(o)), Advance(o))
  }

  lemma HandledWrites(w: World, f: Fault, o: Outcome)
    requires Possible(w, Raise(f)) && Late(w.session.task.stage) && w.session.task.key in w.store.runs
    requires var t := w.session.task; Handle(t, f).stage.SetEnd? && Handle(t, f).key == t.key
    ensures var t := w.session.task; var run := Written(w.store.runs[t.key], Handle(t, f));
            && Handled(w, f, o).session.Idle? && t.key in Handled(w, f, o).store.runs
            && Handled(w, f, o).store.runs[t.key] == Written(run, Next(Handle(t, f), o))
  {
    var t := w.session.task;
    var w1 := Step(w, Raise(f));
    var w2 := Step(w1, Advance(o));
    assert w2.session == Working(Next(Handle(t, f), o)) && w2.store.runs[t.key]
      == Written(w.store.runs[t.key], Handle(t, f));
  }

  /**
   For histories the window opens earlier: a fault raised once the final status was set, and handled to the
   end, always leaves an illegal one; after the last write it turns a finished run into a cancelled or failed one.
   */
  lemma LateFaultRewritesTheEnd(w: World, f: Fault, o: Outcome)
    requires Inv(w) && CleanOk(w) && w.session.Working? && Late(w.session.task.stage) && CanRaise(w.session.task, f)
    ensures w.session.task.key in w.store.runs && Handled(w, f, o).session.Idle?
    ensures var k := w.session.task.key; var end := Handled(w, f, o).store;
            && k in end.runs && end.runs[k].meta.Some? && !HistoryOk(end.runs[k].meta.value)
            && end.runs[k].meta.value.status in {Failed, Cancelled}
    ensures var run := w.store.runs[w.session.task.key];
            w.session.task.stage.Leave? ==> run.meta.Some? && run.meta.value.status in {Completed, Partial}
  {
    var t := w.session.task;
    LateFaultInRun(w.store.runs[t.key], t, f, o);
    HandledWrites(w, f, o);
  }

  // ---- an investigation nothing disturbs ----

  /** Steps left on the unfaulted path. */
  function StepsLeft(s: Stage): nat {
    match s
    case WriteAudit => 15
    case WriteInput => 14
    case WriteMeta => 13
    case WriteIndex => 12
    case Budget => 11
    case SetValidating => 10
    case PutValidating => 9
    case SetAnalyzing => 8
    case PutAnalyzing => 7
    case Analyze => 6
    case PutTools => 5
    case PutReport => 4
    case PutMarkdown => 3
    case SetFinal => 2
    case PutFinal => 1
    case _ => 0
  }

  predicate OnPath(s: Stage) { Early(s) || s.WriteIndex? || (Guarded(s) && !s.Leave?) }

  lemma PathStep(t: Task, o: Outcome)
    requires OnPath(t.stage) && Usable(t, o) && (t.stage.SetFinal? ==> t.report.Some?)
    ensures var u := Next(t, o); (OnPath(u.stage) || u.stage.Leave?) && StepsLeft(u.stage) == StepsLeft(t.stage) - 1
    ensures Next(t, o).key == t.key && Next(t, o).input == t.input
  {
  }

  lemma PathAdvance(w: World, o: Outcome)
    requires Inv(w) && CleanOk(w) && w.session.Working? && OnPath(w.session.task.stage) && Usable(w.session.task, o)
    ensures Possible(w, Advance(o)) && Inv(Step(w, Advance(o))) && CleanOk(Step(w, Advance(o)))
    ensures var v := Step(w, Advance(o)); v.session.Working? && v.session.task == Next(w.session.task, o)
    ensures w.session.task.stage.SetFinal? ==> w.session.task.report.Some?
  {
    StepKeepsInv(w, Advance(o));
    StepKeepsClean(w, Advance(o));
    assert TaskOk(w.store.runs[w.session.task.key], w.session.task);
  }

  /** Left alone, an investigation whose analyser answers well reaches its end: stored, finished and indexed. */
  lemma {:induction false} UndisturbedRunFinishes(w: World, o: Outcome) returns (es: seq<Event>)
    requires Inv(w) && CleanOk(w) && w.session.Working? && Usable(w.session.task, o)
    requires OnPath(w.session.task.stage) || w.session.task.stage.Leave?
    ensures AllPossible(w, es) && AllClean(w, es)
    ensures var v := Play(w, es); var k := w.session.task.key;
            && Inv(v) && CleanOk(v) && v.session.Working? && v.session.task.stage.Leave? && v.session.task.key == k
            && k in v.store.runs && v.store.runs[k].meta.Some?
               && v.store.runs[k].meta.value.status in {Completed, Partial}
            && w.session.task.input.request in v.store.index
    decreases StepsLeft(w.session.task.stage)
  {
    if w.session.task.stage.Leave? {
      es := [];
      assert MemoryOk(w.store.runs[w.session.task.key], w.session.task);
    } else {
      PathAdvance(w, o);
      PathStep(w.session.task, o);
      var rest := UndisturbedRunFinishes(Step(w, Advance(o)), o);
      es := [Advance(o)] + rest;
      assert es[1..] == rest;
    }
  }

  /** The window is not empty: interrupting the lock holder right after its last write undoes a finished run. */
  lemma FinishedRunCanBecomeCancelled(w: World, o: Outcome) returns (es: seq<Event>)
    requires Inv(w) && CleanOk(w) && w.session.Working? && OnPath(w.session.task.stage) && Usable(w.session.task, o)
    ensures AllPossible(w, es) && AllClean(w, es)
    ensures var v := Play(w, es); var k := w.session.task.key;
            && k in v.store.runs && v.store.runs[k].meta.Some?
               && v.store.runs[k].meta.value.status in {Completed, Partial}
            && Possible(v, Raise(Interrupt)) && Late(v.session.task.stage) && v.session.task.key == k
            && var u := Handled(v, Interrupt, o);
               k in u.store.runs && u.store.runs[k].meta.Some?
                 && u.store.runs[k].meta.value.status in {Failed, Cancelled}
  {
    es := UndisturbedRunFinishes(w, o);
    LateFaultRewritesTheEnd(Play(w, es), Interrupt, o);
  }
}
