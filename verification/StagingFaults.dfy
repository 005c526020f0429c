/** The ValueErrors a run can meet in a reconciliation, when exactly, and that each stops its job for good. */
module StagingFaults {
  import opened Wrappers
  import opened StagingTypes
  import opened WorkerProtocol
  import opened ControllerProtocol
  import opened StagingSystem
  import opened StagingInvariant
  import opened StagingSafety
  import opened StagingHistory
  import opened StagingTheorems

  /** The reply of the row's own attempt carries a result that reconciliation looks into. */
  predicate Examined(row: Row, snap: Option<WState>) {
    snap.Some? && snap.value.attempt == row.attempt && snap.value.HasResult() && !snap.value.Exporting?
  }

  /** The first check that a staged result fails, if any. */
  function Refusing(row: Row, result: StageResult): Option<Fault> {
    if !result.stagingOnly then Some(StagingFlagDiffers)
    else if !result.hourMatches then Some(HourDiffers)
    else if result.outputs == [] then None
    else if Bytes(result.outputs) > ExportCap(row.sourceBytes) then Some(ExceedsReservedTransfer)
    else if !NamedAndProven(result.outputs) then Some(OutputIdentityDiffers)
    else None
  }

  /** In a run a reconciliation raises exactly when no export was asked for yet and the result it reads fails a check. */
  lemma FaultExactly(run: seq<Sys>, i: nat, idle: bool, go: bool)
    requires IsRun(run) && i < |run| && run[i].call.Reading? && run[i].call.job in run[i].jobs
    ensures var j, snap := run[i].call.job, run[i].call.snap; var row := run[i].jobs[j].row;
            Reconcile(j, row, snap, idle, go).fault
            == if row.exports == 0 && Examined(row, snap) then Refusing(row, snap.value.result) else None
  {
    hide JobInv, IsRun, ReadbackAccounted, NamedAndProven, Bytes;
    var s := run[i];
    var j, snap := s.call.job, s.call.snap;
    NoFault(run, i, idle, go);
    JobHolds(run, i, j);
    if s.jobs[j].row.exports == 0 && Examined(s.jobs[j].row, snap) {
      SnapUndelivered(j, s.jobs[j], snap, s.store, s.docs);
    }
  }

  /** A job none of whose exports was asked for has a staged result, not yet exported. */
  lemma Undelivered(j: JobId, js: JobSt, call: Call, store: map<Key, Object>, docs: set<Doc>)
    requires JobInv(j, js, call, store, docs) && js.row.exports == 0 && js.row.worker in js.roots
    ensures js.roots[js.row.worker].state.HasResult() ==> js.roots[js.row.worker].state.Staged?
    ensures js.row.state.Submitted? ==> js.row.receipts == map[] || js.roots[js.row.worker].state.HasResult()
  {
  }

  lemma SnapUndelivered(j: JobId, js: JobSt, snap: Option<WState>, store: map<Key, Object>, docs: set<Doc>)
    requires JobInv(j, js, Reading(j, snap), store, docs) && js.row.exports == 0 && Examined(js.row, snap)
    ensures !snap.value.Delivered() && js.row.worker in js.roots
    ensures js.roots[js.row.worker].state == Staged(js.row.attempt, snap.value.result)
  {
  }

  /** A submitted row whose staged result fails a check, and whose call, if any, has read it. */
  ghost predicate Stuck(s: Sys, j: JobId) {
    j in s.jobs && s.jobs[j].row.state.Submitted? && s.jobs[j].row.exports == 0
    && var js, call := s.jobs[j], CallOn(s.call, j);
    js.row.worker in js.roots && js.roots[js.row.worker].state.Staged?
    && js.roots[js.row.worker].state.attempt == js.row.attempt
    && Refusing(js.row, js.roots[js.row.worker].state.result).Some?
    && (call.Idle?
        || (call.Reading? && Examined(js.row, call.snap) && !call.snap.value.Delivered()
            && call.snap.value.result == js.roots[js.row.worker].state.result))
  }

  lemma StuckRaises(s: Sys, j: JobId, idle: bool, go: bool)
    requires Stuck(s, j) && s.call.Reading? && s.call.job == j
    ensures Reconcile(j, s.jobs[j].row, s.call.snap, idle, go)
            == Stop(s.jobs[j].row, Refusing(s.jobs[j].row, s.call.snap.value.result).value)
  {
    hide NamedAndProven, Bytes;
  }

  /** The steps that could write the row or move its call find nothing to do. */
  lemma StuckRow(s: Sys, step: Step, j: JobId)
    requires Allowed(s, step) && Stuck(s, j)
    ensures var t := Apply(s, step);
            j in t.jobs && t.jobs[j].row == s.jobs[j].row
            && (CallOn(t.call, j).Idle? || CallOn(t.call, j) == CallOn(s.call, j)
                || (step == Get(j) && t.call == Reading(j, StateOn(s.jobs[j], s.jobs[j].row.worker))))
  {
    hide Reconcile, Handle, Handled, Work, Enabled, NoneSubmitted, CrashAll, Refusing, BeginSubmit, Settle;
    match step {
      case ReconcileRow(idle, go) => if s.call.job == j { StuckRaises(s, j, idle, go); } else { CallStays(s, idle, go); }
      case Dispatch(i, w, go) => BeginsOn(i, s.jobs[i].row, w, go);
      case HoldForStructure(_) =>
      case SettleReply => SettlesOn(s);
      case ArchiveConfirmed =>
      case SaveResultFile =>
      case FinishRow =>
      case Deliver(_, _, _, _) => UnrelatedRow(s, step, j);
      case CutRelease(_, _, _) => UnrelatedRow(s, step, j); CrashCall(s, step);
      case Crash(_) => UnrelatedRow(s, step, j); CrashCall(s, step);
      case _ => UnrelatedRow(s, step, j);
    }
  }

  lemma CrashCall(s: Sys, step: Step)
    requires Allowed(s, step) && (step.Crash? || step.CutRelease?)
    ensures Apply(s, step).call == s.call
  {
  }

  lemma CallStays(s: Sys, idle: bool, go: bool)
    requires s.call.Reading? && s.call.job in s.jobs
    ensures var o := Reconcile(s.call.job, s.jobs[s.call.job].row, s.call.snap, idle, go); o.call.Idle? || o.call.job == s.call.job
  {
    hide ReadbackAccounted, NamedAndProven, Bytes;
  }

  lemma BeginsOn(j: JobId, row: Row, w: WorkerId, go: bool)
    ensures var o := BeginSubmit(j, row, w, 1, go); o.call.Idle? || o.call.job == j
  {
  }

  lemma SettlesOn(s: Sys)
    requires s.call.Answered? && s.call.job in s.jobs
    ensures var o := Settle(s.call.job, s.jobs[s.call.job].row, s.call.msg, s.call.priorAttempt, s.call.priorCount, s.call.status);
            o.call.Idle? || o.call.job == s.call.job
  {
  }

  lemma StuckStays(s: Sys, step: Step, j: JobId)
    requires Inv(s) && Allowed(s, step) && Stuck(s, j)
    ensures Stuck(Apply(s, step), j) && Apply(s, step).jobs[j].row == s.jobs[j].row
    ensures Apply(s, step).jobs[j].roots[s.jobs[j].row.worker].state == s.jobs[j].roots[s.jobs[j].row.worker].state
  {
    hide JobInv, WorkerInv, OneSubmitted, OwnersExist, Apply, Allowed, Refusing;
    var t, w := Apply(s, step), s.jobs[j].row.worker;
    StuckRow(s, step, j);
    StepHolds(s, step);
    StepLater(s, step);
    assert JobLater(s.jobs[j], t.jobs[j]);
    assert JobInv(j, t.jobs[j], CallOn(t.call, j), t.store, t.docs);
    Undelivered(j, t.jobs[j], CallOn(t.call, j), t.store, t.docs);
    assert StateLater(s.jobs[j].roots[w].state, t.jobs[j].roots[w].state);
  }

  lemma FaultIsStuck(run: seq<Sys>, i: nat, idle: bool, go: bool)
    requires IsRun(run) && i < |run| && run[i].call.Reading? && run[i].call.job in run[i].jobs
    requires Reconcile(run[i].call.job, run[i].jobs[run[i].call.job].row, run[i].call.snap, idle, go).fault.Some?
    ensures Stuck(run[i], run[i].call.job)
  {
    var s := run[i];
    hide JobInv, IsRun, Reconcile;
    FaultExactly(run, i, idle, go);
    JobHolds(run, i, s.call.job);
    SnapUndelivered(s.call.job, s.jobs[s.call.job], s.call.snap, s.store, s.docs);
    ReadSubmitted(s.call.job, s.jobs[s.call.job], s.call.snap, s.store, s.docs);
  }

  lemma ReadSubmitted(j: JobId, js: JobSt, snap: Option<WState>, store: map<Key, Object>, docs: set<Doc>)
    requires JobInv(j, js, Reading(j, snap), store, docs)
    ensures js.row.state.Submitted?
  {
  }

  lemma {:induction false} StuckForGood(run: seq<Sys>, i: nat, k: nat, j: JobId)
    requires IsRun(run) && i <= k < |run| && Stuck(run[i], j)
    ensures Stuck(run[k], j) && run[k].jobs[j].row == run[i].jobs[j].row
    ensures run[k].jobs[j].roots[run[i].jobs[j].row.worker].state == run[i].jobs[j].roots[run[i].jobs[j].row.worker].state
    decreases k
  {
    hide Inv, Apply, Allowed, Refusing, Examined, Init;
    if i < k {
      StuckForGood(run, i, k - 1, j);
      RunHolds(run, k - 1);
      assert Next(run[k - 1], run[k]);
      var step :| Allowed(run[k - 1], step) && run[k] == Apply(run[k - 1], step);
      StuckStays(run[k - 1], step, j);
    }
  }

  /**
   A ValueError is not a wait: whatever happens later the row stays submitted exactly as it is, and every
   reconciliation of it raises the same error again.
   */
  lemma FaultRepeats(run: seq<Sys>, i: nat, k: nat, idle: bool, go: bool, idle': bool, go': bool)
    requires IsRun(run) && i <= k < |run| && run[i].call.Reading? && run[i].call.job in run[i].jobs
    requires Reconcile(run[i].call.job, run[i].jobs[run[i].call.job].row, run[i].call.snap, idle, go).fault.Some?
    ensures var j := run[i].call.job; var o := Reconcile(j, run[i].jobs[j].row, run[i].call.snap, idle, go);
            j in run[k].jobs && run[k].jobs[j].row == run[i].jobs[j].row
            && (run[k].call.Reading? && run[k].call.job == j ==>
                  Reconcile(j, run[k].jobs[j].row, run[k].call.snap, idle', go') == o)
  {
    hide Reconcile, Inv, Init, IsRun, Refusing, Examined;
    var j := run[i].call.job;
    FaultIsStuck(run, i, idle, go);
    StuckForGood(run, i, k, j);
    StuckRaises(run[i], j, idle, go);
    if run[k].call.Reading? && run[k].call.job == j {
      StuckRaises(run[k], j, idle', go');
    }
  }
}
