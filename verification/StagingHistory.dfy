/** What no later state of a run takes back: admissions, results, receipts, stored objects and terminal rows. */
module StagingHistory {
  import opened Wrappers
  import opened StagingTypes
  import opened WorkerProtocol
  import opened ControllerProtocol
  import opened StagingSystem
  import opened StagingInvariant
  import opened StagingSafety

  ghost predicate StateLater(s: WState, t: WState) {
    s.attempt <= t.attempt
    && (s.HasResult() ==> t.HasResult() && t.attempt == s.attempt && t.result == s.result)
    && (s.Delivered() ==> t.Delivered() && t.receipts == s.receipts)
    && (s.Released? ==> t == s)
  }

  ghost predicate RowLater(r: Row, q: Row) {
    q.sourceBytes == r.sourceBytes && (r.Terminal() ==> q == r) && Extends(r.receipts, q.receipts)
  }

  ghost predicate JobLater(a: JobSt, b: JobSt) {
    RowLater(a.row, b.row) && a.spawned <= b.spawned && a.sent <= b.sent && a.runs <= b.runs
    && forall w :: w in a.roots ==> w in b.roots && StateLater(a.roots[w].state, b.roots[w].state)
  }

  ghost predicate Later(s: Sys, t: Sys) {
    t.jobs.Keys == s.jobs.Keys && t.workers.Keys == s.workers.Keys && Extends(s.store, t.store) && s.docs <= t.docs
    && forall j :: j in s.jobs ==> JobLater(s.jobs[j], t.jobs[j])
  }

  lemma LaterSelf(s: Sys)
    ensures Later(s, s)
  {
  }

  lemma LaterThen(s: Sys, t: Sys, u: Sys)
    requires Later(s, t) && Later(t, u)
    ensures Later(s, u)
  {
    forall j | j in s.jobs ensures JobLater(s.jobs[j], u.jobs[j]) {
      assert JobLater(s.jobs[j], t.jobs[j]) && JobLater(t.jobs[j], u.jobs[j]);
    }
  }

  lemma ReconcileLater(j: JobId, row: Row, snap: Option<WState>, idle: bool, go: bool)
    requires row.state.Submitted?
    ensures RowLater(row, Reconcile(j, row, snap, idle, go).row)
  {
  }

  /** An archive receipt already kept is the one a repeated upload would give. */
  lemma KeepLater(j: JobId, js: JobSt, snap: Option<WState>, store: map<Key, Object>, docs: set<Doc>)
    requires snap.Some? && snap.value.Delivered() && JobInv(j, js, Archiving(j, snap), store, docs)
    ensures RowLater(js.row, KeepReceipt(j, js.row, snap.value))
  {
  }

  lemma CommitLater(s: Sys, step: Step)
    requires Inv(s) && Allowed(s, step)
    requires step.SettleReply? || step.ArchiveConfirmed? || step.SaveResultFile? || step.FinishRow? || step.ReconcileRow?
    ensures Later(s, Apply(s, step))
  {
    hide JobInv, WorkerInv, OneSubmitted, Reconcile;
    CalledIsSubmitted(s);
    var j := s.call.job;
    assert JobInv(j, s.jobs[j], s.call, s.store, s.docs);
    match step {
      case ReconcileRow(idle, go) => ReconcileLater(j, s.jobs[j].row, s.call.snap, idle, go);
      case ArchiveConfirmed => KeepLater(j, s.jobs[j], s.call.snap, s.store, s.docs);
      case SettleReply =>
      case SaveResultFile =>
      case FinishRow =>
    }
    OneJobLater(s, Apply(s, step), j);
  }

  lemma OneJobLater(s: Sys, t: Sys, j: JobId)
    requires j in s.jobs && j in t.jobs && t.jobs == s.jobs[j := t.jobs[j]] && t.workers.Keys == s.workers.Keys
    requires t.store == s.store && s.docs <= t.docs && JobLater(s.jobs[j], t.jobs[j])
    ensures Later(s, t)
  {
  }

  lemma HandledLater(j: JobId, js: JobSt, active: set<JobId>, msg: Message, gate: Gate)
    ensures JobLater(js, Handled(js, msg, Handle(j, js, active, msg, gate)))
  {
  }

  lemma WorkedLater(js: JobSt, w: WorkerId, work: WorkStep, store: map<Key, Object>)
    requires w in js.roots && Enabled(js.roots[w], work, store) && Threads(js.roots[w], js.spawned, store)
    ensures JobLater(js, Work(js, w, work, store))
  {
    hide InStore;
  }

  lemma CrashLater(s: Sys, w: WorkerId)
    requires w in s.workers
    ensures Later(s, CrashAll(s, w))
  {
    var t := CrashAll(s, w);
    forall i | i in s.jobs ensures JobLater(s.jobs[i], t.jobs[i]) { }
  }

  lemma RestartLater(s: Sys, w: WorkerId)
    requires Allowed(s, Restart(w))
    ensures Later(s, Apply(s, Restart(w)))
  {
    hide JobLater, RestartJob;
    var t := Apply(s, Restart(w));
    forall i | i in s.jobs ensures JobLater(s.jobs[i], t.jobs[i]) { RestartedLater(s.jobs[i], w); }
  }

  lemma RestartedLater(js: JobSt, w: WorkerId)
    ensures JobLater(js, RestartJob(js, w))
  {
  }

  lemma CutLater(s: Sys, j: JobId, w: WorkerId, removed: nat)
    requires Allowed(s, CutRelease(j, w, removed))
    ensures Later(s, Apply(s, CutRelease(j, w, removed)))
  {
    var u := s.(jobs := s.jobs[j := ReleaseCut(s.jobs[j], w, removed)]);
    OneJobLater(s, u, j);
    CrashLater(u, w);
    LaterThen(s, u, CrashAll(u, w));
  }

  lemma DeliverLater(s: Sys, step: Step)
    requires step.Deliver? && Allowed(s, step)
    ensures Later(s, Apply(s, step))
  {
    hide Handle, Handled, JobLater;
    HandledLater(step.job, s.jobs[step.job], s.workers[step.msg.worker].active, step.msg, step.gate);
    OneJobLater(s, Apply(s, step), step.job);
  }

  lemma WorkLater(s: Sys, step: Step)
    requires step.WorkOn? && Inv(s) && Allowed(s, step)
    ensures Later(s, Apply(s, step))
  {
    hide JobInv, WorkerInv, OneSubmitted, Work, Enabled, Threads, JobLater;
    var j := step.job;
    DirectoryThreads(j, s.jobs[j], CallOn(s.call, j), step.worker, s.store, s.docs);
    WorkedLater(s.jobs[j], step.worker, step.work, s.store);
    OneJobLater(s, Apply(s, step), j);
  }

  lemma StepLater(s: Sys, step: Step)
    requires Inv(s) && Allowed(s, step)
    ensures Later(s, Apply(s, step))
  {
    hide JobInv, WorkerInv, OneSubmitted, Handle, Handled, Work, Enabled, Threads, Later;
    var t := Apply(s, step);
    match step {
      case ReconcileRow(_, _) => CommitLater(s, step);
      case SettleReply => CommitLater(s, step);
      case ArchiveConfirmed => CommitLater(s, step);
      case SaveResultFile => CommitLater(s, step);
      case FinishRow => CommitLater(s, step);
      case Deliver(_, _, _, _) => DeliverLater(s, step);
      case WorkOn(_, _, _) => WorkLater(s, step);
      case Dispatch(j, _, _) => OneJobLater(s, t, j);
      case HoldForStructure(j) => OneJobLater(s, t, j);
      case Send => OneJobLater(s, t, s.call.job);
      case CutRelease(j, w, removed) => CutLater(s, j, w, removed);
      case Crash(w) => CrashLater(s, w);
      case Restart(w) => RestartLater(s, w);
      case Get(_) => SameJobsLater(s, t);
      case GiveUp => SameJobsLater(s, t);
      case StorePut(_, _) => SameJobsLater(s, t);
      case StoreDoc(_) => SameJobsLater(s, t);
    }
  }

  lemma SameJobsLater(s: Sys, t: Sys)
    requires t.jobs == s.jobs && t.workers == s.workers && Extends(s.store, t.store) && s.docs <= t.docs
    ensures Later(s, t)
  {
  }

  lemma {:induction false} RunLater(run: seq<Sys>, i: nat, k: nat)
    requires IsRun(run) && i <= k < |run|
    ensures Later(run[i], run[k])
    decreases k
  {
    hide Later, Inv;
    if i == k {
      LaterSelf(run[i]);
    } else {
      RunLater(run, i, k - 1);
      RunHolds(run, k - 1);
      assert Next(run[k - 1], run[k]);
      var step :| Allowed(run[k - 1], step) && run[k] == Apply(run[k - 1], step);
      StepLater(run[k - 1], step);
      LaterThen(run[i], run[k - 1], run[k]);
    }
  }

  /** The steps that write no row at all. */
  lemma UnrelatedRow(s: Sys, step: Step, j: JobId)
    requires Allowed(s, step) && j in s.jobs
    requires step.Get? || step.Send? || step.GiveUp? || step.Deliver? || step.CutRelease? || step.WorkOn? || step.StorePut?
             || step.StoreDoc? || step.Crash? || step.Restart?
    ensures j in Apply(s, step).jobs && Apply(s, step).jobs[j].row == s.jobs[j].row
  {
    hide Handle, Worked, Enabled, NoneSubmitted, CrashAll, CrashJob, ReleaseCut;
    match step {
      case CutRelease(i, w, removed) =>
        CutRow(s.jobs[i], w, removed);
        CrashedRow(s.(jobs := s.jobs[i := ReleaseCut(s.jobs[i], w, removed)]), w, j);
      case Crash(w) => CrashedRow(s, w, j);
      case _ =>
    }
  }

  lemma CutRow(js: JobSt, w: WorkerId, removed: nat)
    requires w in js.roots && js.roots[w].state.Exported? && removed <= |js.roots[w].state.result.outputs|
    ensures ReleaseCut(js, w, removed).row == js.row
  {
  }

  lemma CrashedRow(s: Sys, w: WorkerId, j: JobId)
    requires w in s.workers && j in s.jobs
    ensures j in CrashAll(s, w).jobs && CrashAll(s, w).jobs[j].row == s.jobs[j].row
  {
  }
}
