/**
 What the reader of a stored run accepts, whatever files it finds: exactly the runs whose files agree with each
 other, with the run they are read as, and with the end their metadata tells.
 */
module IncidentReader {
  import opened Wrappers
  import opened Incidents
  import opened IncidentsLaws

  /** The report is about the stored input, and a model's cites only what the model was given. */
  predicate ReportFits(run: Run, k: RunKey)
    requires run.input.Some? && run.report.Some?
  {
    var x, r := run.input.value, run.report.value;
    && r.input == x && r.key == k && (forall c :: c in r.cites ==> c in x.bundle.available)
    && (r.mode == Ai ==>
          && run.tools.Some? && run.tools.value.key == k && run.tools.value.bundle == x.bundle
          && forall c :: c in r.cites ==> c in run.tools.value.delivered)
  }

  /** A snapshot's run: audit, report, status and reason are all functions of its input. */
  predicate SnapshotAgrees(run: Run, k: RunKey)
    requires run.meta.Some? && run.input.Some? && run.report.Some? && run.input.value.audit.Some?
  {
    var m, x := run.meta.value, run.input.value;
    var complete := x.audit.value.complete;
    && run.audit == Some(Envelope(x.bundle, x.audit.value)) && m.envelope == run.audit && m.input.mode == Rules
    && run.report == Some(Report(x, k, Rules, CapturedRules, !complete, {}, "captured"))
    && m.status == (if complete then Completed else Partial)
    && m.reason == (if complete then None else Some("collection_incomplete"))
  }

  /** Any other run: a complete report of its mode, or the fallback for a listed model failure. */
  predicate ReplayAgrees(run: Run)
    requires run.meta.Some? && run.report.Some?
  {
    var m, r := run.meta.value, run.report.value;
    && m.envelope.None?
    && (if m.status == Completed then r.mode == m.input.mode
        else && m.input.mode == Ai && r.mode == Rules && r.engine == FallbackRules && r.partial
             && m.reason.Some? && m.reason.value in FALLBACK)
  }

  predicate Finished(run: Run) {
    run.meta.Some? && (run.meta.value.status == Completed || run.meta.value.status == Partial)
  }

  predicate Agrees(run: Run, k: RunKey) {
    && run.meta.Some? && run.meta.value.key == k
    && (Finished(run) ==>
          && run.input.Some? && run.report.Some? && ReportFits(run, k)
          && if run.input.value.audit.Some? then SnapshotAgrees(run, k) else ReplayAgrees(run))
  }

  lemma SnapshotIsReadExactly(run: Run, k: RunKey)
    requires Finished(run) && run.input.Some? && run.report.Some? && run.input.value.audit.Some?
    requires run.meta.value.key == k
    ensures ReadRecord(run, k).Success? <==> ReportFits(run, k) && SnapshotAgrees(run, k)
  {
    assert CapturedReport(run.input.value, k).partial == !run.input.value.audit.value.complete;
  }

  lemma ReplayIsReadExactly(run: Run, k: RunKey)
    requires Finished(run) && run.input.Some? && run.report.Some? && run.input.value.audit.None?
    requires run.meta.value.key == k
    ensures ReadRecord(run, k).Success? <==> ReportFits(run, k) && ReplayAgrees(run)
  {
  }

  /** Whatever files are there: a run is read exactly if they agree, and then its own report is returned. */
  lemma ReadExactly(run: Run, k: RunKey)
    ensures ReadRecord(run, k).Success? <==> Agrees(run, k)
    ensures Agrees(run, k) ==> ReadRecord(run, k).value == if Finished(run) then run.report else None
  {
    if Finished(run) && run.input.Some? && run.report.Some? && run.meta.value.key == k {
      if run.input.value.audit.Some? { SnapshotIsReadExactly(run, k); } else { ReplayIsReadExactly(run, k); }
    }
  }

  /**
   Of a finished snapshot run no file that is read, and neither its end nor its name, can be replaced unnoticed,
   unless input and report are forged together.
   */
  lemma ChangedSnapshotIsRefused(run: Run, k: RunKey, changed: Run, j: RunKey)
    requires RunOk(run, k) && Finished(run) && run.meta.value.input.audit.Some? && Finished(changed)
    requires changed.meta.value.key == run.meta.value.key && changed.meta.value.envelope == run.meta.value.envelope
    requires || changed.input != run.input || changed.report != run.report || changed.audit != run.audit
             || changed.meta.value.status != run.meta.value.status || j != k
             || changed.meta.value.reason != run.meta.value.reason
    requires changed.input == run.input || changed.report == run.report
    ensures ReadRecord(run, k).Success? && ReadRecord(changed, j).Failure?
  {
    StoredRunsCanBeRead(run, k);
    ReadExactly(run, k);
    ReadExactly(changed, j);
  }
}
