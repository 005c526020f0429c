/** The invariant holds in every state of every run. */
module StagingSafety {
  import opened Wrappers
  import opened StagingTypes
  import opened WorkerProtocol
  import opened ControllerProtocol
  import opened StagingSystem
  import opened StagingInvariant
  import opened ControllerSteps
  import opened WorkerSteps

  lemma InitHolds(s: Sys)
    requires Init(s)
    ensures Inv(s)
  {
  }

  /** A step on one row leaves every directory alone. */
  lemma RowStepHolds(s: Sys, t: Sys, j: JobId)
    requires Inv(s) && j in s.jobs && j in t.jobs && t.jobs == s.jobs[j := t.jobs[j]] && t.workers == s.workers
    requires t.jobs[j].roots == s.jobs[j].roots && (s.call.Idle? || s.call.job == j) && (t.call.Idle? || t.call.job == j)
    requires t.store == s.store && s.docs <= t.docs
    requires JobInv(j, t.jobs[j], CallOn(t.call, j), t.store, t.docs)
    requires t.jobs[j].row.state.Submitted? && !s.jobs[j].row.state.Submitted? ==> NoneSubmitted(s, t.jobs[j].row.worker)
    requires s.jobs[j].row.state.Submitted? ==> t.jobs[j].row.worker == s.jobs[j].row.worker
    ensures Inv(t)
  {
    hide JobInv, WorkerInv, OneSubmitted;
    forall i | i in t.jobs ensures JobInv(i, t.jobs[i], CallOn(t.call, i), t.store, t.docs) {
      if i != j { StoreGrows(i, s.jobs[i], Idle, s.store, s.docs, t.store, t.docs); }
    }
    forall w | w in t.workers ensures WorkerInv(t, w) { ElsewhereHolds(s, t, w); }
    RowKeepsOne(s, t, j);
  }

  lemma RowKeepsOne(s: Sys, t: Sys, j: JobId)
    requires OneSubmitted(s) && j in s.jobs && j in t.jobs && t.jobs == s.jobs[j := t.jobs[j]]
    requires t.jobs[j].row.state.Submitted? && !s.jobs[j].row.state.Submitted? ==> NoneSubmitted(s, t.jobs[j].row.worker)
    requires s.jobs[j].row.state.Submitted? ==> t.jobs[j].row.worker == s.jobs[j].row.worker
    ensures OneSubmitted(t)
  {
  }

  /** The controller is only ever in the middle of a submitted row. */
  lemma CalledIsSubmitted(s: Sys)
    requires Inv(s) && !s.call.Idle?
    ensures s.jobs[s.call.job].row.state.Submitted?
  {
    assert JobInv(s.call.job, s.jobs[s.call.job], CallOn(s.call, s.call.job), s.store, s.docs);
  }

  lemma HoldForStructureKeeps(j: JobId, js: JobSt, store: map<Key, Object>, docs: set<Doc>)
    requires JobInv(j, js, Idle, store, docs) && js.row.state.Queued?
    ensures JobInv(j, js.(row := js.row.(state := HeldStructure)), Idle, store, docs)
  {
  }

  lemma DispatchHolds(s: Sys, j: JobId, w: WorkerId, go: bool)
    requires Inv(s) && Allowed(s, Dispatch(j, w, go))
    ensures Inv(Apply(s, Dispatch(j, w, go)))
  {
    hide JobInv, WorkerInv;
    assert JobInv(j, s.jobs[j], CallOn(s.call, j), s.store, s.docs);
    DispatchKeeps(j, s.jobs[j], w, go, s.store, s.docs);
    var t := Apply(s, Dispatch(j, w, go));
    assert t.jobs[j] == s.jobs[j].(row := BeginSubmit(j, s.jobs[j].row, w, 1, go).row);
    RowStepHolds(s, t, j);
  }

  lemma ReconcileShape(j: JobId, row: Row, snap: Option<WState>, idle: bool, go: bool)
    ensures var o := Reconcile(j, row, snap, idle, go);
            o.row.worker == row.worker && (o.call.Idle? || o.call.job == j)
  {
  }

  lemma ReconcileHolds(s: Sys, idle: bool, go: bool)
    requires Inv(s) && Allowed(s, ReconcileRow(idle, go))
    ensures Inv(Apply(s, ReconcileRow(idle, go)))
  {
    hide JobInv, WorkerInv, Reconcile;
    CalledIsSubmitted(s);
    var j := s.call.job;
    assert JobInv(j, s.jobs[j], s.call, s.store, s.docs);
    ReconcileShape(j, s.jobs[j].row, s.call.snap, idle, go);
    ReconcileKeeps(j, s.jobs[j], s.call.snap, idle, go, s.store, s.docs);
    var t := Apply(s, ReconcileRow(idle, go));
    assert t.jobs[j] == s.jobs[j].(row := Reconcile(j, s.jobs[j].row, s.call.snap, idle, go).row);
    RowStepHolds(s, t, j);
  }

  lemma ReadStepHolds(s: Sys, step: Step)
    requires Inv(s) && Allowed(s, step)
    requires step.HoldForStructure? || step.Get? || step.Send? || step.GiveUp?
    ensures Inv(Apply(s, step))
  {
    hide JobInv, WorkerInv;
    var t := Apply(s, step);
    if !s.call.Idle? { CalledIsSubmitted(s); }
    match step {
      case HoldForStructure(j) =>
        assert JobInv(j, s.jobs[j], CallOn(s.call, j), s.store, s.docs);
        HoldForStructureKeeps(j, s.jobs[j], s.store, s.docs);
        RowStepHolds(s, t, j);
      case Get(j) =>
        assert JobInv(j, s.jobs[j], CallOn(s.call, j), s.store, s.docs);
        GetKeeps(j, s.jobs[j], s.store, s.docs);
        RowStepHolds(s, t, j);
      case Send =>
        SendKeeps(s.call.job, s.jobs[s.call.job], s.call, s.store, s.docs);
        RowStepHolds(s, t, s.call.job);
      case GiveUp =>
        if !s.call.Idle? {
          GiveUpKeeps(s.call.job, s.jobs[s.call.job], s.call, s.store, s.docs);
          RowStepHolds(s, t, s.call.job);
        }
    }
  }

  lemma CommitStepHolds(s: Sys, step: Step)
    requires Inv(s) && Allowed(s, step)
    requires step.SettleReply? || step.ArchiveConfirmed? || step.SaveResultFile? || step.FinishRow?
    ensures Inv(Apply(s, step))
  {
    hide JobInv;
    var t := Apply(s, step);
    var j := s.call.job;
    CalledIsSubmitted(s);
    match step {
      case SettleReply => SettleKeeps(j, s.jobs[j], s.call, s.store, s.docs);
      case ArchiveConfirmed => ArchiveKeeps(j, s.jobs[j], s.call.snap, s.store, s.docs);
      case SaveResultFile => SaveKeeps(j, s.jobs[j], s.call.snap, s.store, s.docs);
      case FinishRow => FinishKeeps(j, s.jobs[j], s.store, s.docs);
    }
    RowStepHolds(s, t, j);
  }

  /** `t` is `s` after worker `w` took one step on job `j`. */
  ghost predicate Touches(s: Sys, t: Sys, j: JobId, w: WorkerId) {
    && j in s.jobs && j in t.jobs && w in s.workers && w in t.workers
    && t.jobs == s.jobs[j := t.jobs[j]] && t.workers == s.workers[w := Worker(s.workers[w].up, t.workers[w].active)]
    && t.jobs[j].row == s.jobs[j].row && t.store == s.store && t.docs == s.docs
    && t.jobs[j].roots.Keys <= s.jobs[j].roots.Keys + {w}
    && (forall v :: v in s.jobs[j].roots && v != w ==> v in t.jobs[j].roots && t.jobs[j].roots[v] == s.jobs[j].roots[v])
    && (t.call == s.call || (!t.call.Idle? && !s.call.Idle? && t.call.job == s.call.job == j))
  }

  lemma WorkerStepKeeps(s: Sys, t: Sys, j: JobId, w: WorkerId)
    requires Touches(s, t, j, w) && WorkerInv(s, w)
    requires s.workers[w].up ==>
               (t.workers[w].active == s.workers[w].active || (s.workers[w].active == {} && t.workers[w].active == {j})
                || (t.workers[w].active == s.workers[w].active - {j} && !Occupies(t, w, j)))
               && (Occupies(t, w, j) ==> j in t.workers[w].active)
    requires !s.workers[w].up ==>
               t.workers[w].active == {} && (w in t.jobs[j].roots ==> t.jobs[j].roots[w].threads == {})
               && (Occupies(t, w, j) ==> Occupies(s, w, j))
    ensures WorkerInv(t, w)
  {
    OthersOccupy(s, t, j, w);
    hide Occupying, Touches, Occupies;
    if !s.workers[w].up {
      DownKeeps(s, t, j, w);
    }
  }

  lemma OthersOccupy(s: Sys, t: Sys, j: JobId, w: WorkerId)
    requires Touches(s, t, j, w)
    ensures t.jobs.Keys == s.jobs.Keys && t.workers[w].up == s.workers[w].up
    ensures forall i :: i in t.jobs && i != j ==> t.jobs[i] == s.jobs[i] && (Occupies(t, w, i) <==> Occupies(s, w, i))
  {
    hide Occupying;
  }

  lemma DownKeeps(s: Sys, t: Sys, j: JobId, w: WorkerId)
    requires Touches(s, t, j, w) && WorkerInv(s, w) && !s.workers[w].up
    requires t.workers[w].active == {} && (w in t.jobs[j].roots ==> t.jobs[j].roots[w].threads == {})
    requires Occupies(t, w, j) ==> Occupies(s, w, j)
    ensures WorkerInv(t, w)
  {
    OthersOccupy(s, t, j, w);
    hide Occupying, Touches, Occupies;
  }

  lemma OtherWorkerKeeps(s: Sys, t: Sys, j: JobId, w: WorkerId, v: WorkerId)
    requires Touches(s, t, j, w) && v in s.workers && v != w && WorkerInv(s, v)
    ensures WorkerInv(t, v)
  {
    hide Occupying;
    assert forall i :: i in t.jobs && i != j ==> t.jobs[i] == s.jobs[i];
    assert forall i :: i in t.jobs ==> (Occupies(t, v, i) <==> Occupies(s, v, i));
  }

  lemma WorkStepHolds(s: Sys, t: Sys, j: JobId, w: WorkerId)
    requires Inv(s) && Touches(s, t, j, w)
    requires JobInv(j, t.jobs[j], CallOn(t.call, j), t.store, t.docs) && WorkerInv(t, w)
    ensures Inv(t)
  {
    hide JobInv, WorkerInv;
    forall i | i in t.jobs ensures JobInv(i, t.jobs[i], CallOn(t.call, i), t.store, t.docs) {
      assert JobInv(i, s.jobs[i], CallOn(s.call, i), s.store, s.docs);
    }
    forall v | v in t.workers ensures WorkerInv(t, v) {
      if v != w { OtherWorkerKeeps(s, t, j, w, v); }
    }
    OneSubmittedKept(s, t);
  }

  lemma OneSubmittedKept(s: Sys, t: Sys)
    requires OneSubmitted(s) && t.jobs.Keys == s.jobs.Keys
    requires forall j :: j in s.jobs ==> t.jobs[j].row == s.jobs[j].row
    ensures OneSubmitted(t)
  {
  }

  /** ACTIVE empty means the job has no thread, so the handler may start one. */
  lemma HandledKeeps(j: JobId, js: JobSt, call: Call, msg: Message, awaited: bool, gate: Gate, active: set<JobId>,
                     store: map<Key, Object>, docs: set<Doc>)
    requires JobInv(j, js, call, store, docs) && Consumable(js, call, msg, awaited)
    requires active == {} && msg.worker in js.roots ==> !Occupying(js.roots[msg.worker])
    ensures var answer := Handle(j, js, active, msg, gate);
            JobInv(j, Handled(js, msg, answer), CallAfter(call, awaited, answer.status), store, docs)
  {
    hide JobInv;
    var w := msg.worker;
    var answer := Handle(j, js, active, msg, gate);
    match msg {
      case JobPost(_, a) =>
        if answer.status == 202 {
          AdmitKeeps(j, js, call, w, a, awaited, active, store, docs);
        } else {
          AnswerKeeps(j, js, call, msg, awaited, answer.status, store, docs);
          assert Handled(js, msg, answer) == Taken(js, msg);
        }
      case ExportPost(_) =>
        if answer.status == 202 {
          ExportBeginKeeps(j, js, call, w, awaited, active, store, docs);
        } else {
          AnswerKeeps(j, js, call, msg, awaited, answer.status, store, docs);
          assert Handled(js, msg, answer) == Taken(js, msg);
        }
      case ReleasePost(_) =>
        PostedToOwner(j, js, call, msg, store, docs);
        if w in js.roots && js.roots[w].state.Exported? && active == {} {
          ReleaseKeeps(j, js, call, w, awaited, active, store, docs);
        } else {
          AnswerKeeps(j, js, call, msg, awaited, answer.status, store, docs);
          assert Handled(js, msg, answer) == Taken(js, msg);
        }
    }
  }

  lemma PostedToOwner(j: JobId, js: JobSt, call: Call, msg: Message, store: map<Key, Object>, docs: set<Doc>)
    requires JobInv(j, js, call, store, docs) && msg in js.posts
    ensures msg.worker == js.row.worker
  {
  }

  /** What a handler does to ACTIVE and to whether the job occupies its worker. */
  lemma HandledActive(j: JobId, js: JobSt, active: set<JobId>, msg: Message, gate: Gate)
    requires msg.worker in js.roots && Occupying(js.roots[msg.worker]) ==> j in active
    ensures var answer := Handle(j, js, active, msg, gate);
            var js' := Handled(js, msg, answer);
            (answer.active == active || (active == {} && answer.active == {j}))
            && (msg.worker in js'.roots && Occupying(js'.roots[msg.worker]) ==> j in answer.active)
            && js'.roots.Keys <= js.roots.Keys + {msg.worker} && js'.row == js.row
            && (forall v :: v in js.roots && v != msg.worker ==> v in js'.roots && js'.roots[v] == js.roots[v])
  {
  }

  lemma DeliverHolds(s: Sys, j: JobId, msg: Message, awaited: bool, gate: Gate)
    requires Inv(s) && Deliverable(s, j, msg, awaited)
    ensures Inv(DeliverTo(s, j, msg, awaited, gate))
  {
    hide JobInv, Handle, Handled, Occupying;
    var t := DeliverTo(s, j, msg, awaited, gate);
    var w, js, call := msg.worker, s.jobs[j], CallOn(s.call, j);
    var active := s.workers[w].active;
    assert WorkerInv(s, w);
    assert w in js.roots ==> (Occupies(s, w, j) <==> Occupying(js.roots[w]));
    HandledKeeps(j, js, call, msg, awaited, gate, active, s.store, s.docs);
    HandledActive(j, js, active, msg, gate);
    WorkerStepKeeps(s, t, j, w);
    WorkStepHolds(s, t, j, w);
  }

  // ----- threads, crashes and restarts -----

  lemma ThreadsAreUp(s: Sys, j: JobId, w: WorkerId)
    requires Inv(s) && j in s.jobs && w in s.workers && w in s.jobs[j].roots && !s.workers[w].up
    ensures s.jobs[j].roots[w].threads == {}
  {
    hide JobInv;
    assert WorkerInv(s, w);
  }

  lemma WorkedOccupying(js: JobSt, w: WorkerId, work: WorkStep, store: map<Key, Object>)
    requires w in js.roots && Enabled(js.roots[w], work, store) && Threads(js.roots[w], js.spawned, store)
    ensures var js' := Work(js, w, work, store);
            js'.roots.Keys == js.roots.Keys && js'.row == js.row
            && (forall v :: v in js.roots && v != w ==> js'.roots[v] == js.roots[v])
            && (Occupying(js'.roots[w]) ==> Occupying(js.roots[w]))
            && (work.LeaveActive? ==> !Occupying(js'.roots[w]))
            && (js.roots[w].threads == {} ==> work.RunnerExits? && js'.roots[w].threads == {})
  {
  }

  lemma DirectoryThreads(j: JobId, js: JobSt, call: Call, w: WorkerId, store: map<Key, Object>, docs: set<Doc>)
    requires JobInv(j, js, call, store, docs) && w in js.roots
    ensures Threads(js.roots[w], js.spawned, store)
  {
  }

  lemma WorkHolds(s: Sys, j: JobId, w: WorkerId, work: WorkStep)
    requires Inv(s) && Allowed(s, WorkOn(j, w, work))
    ensures Inv(Apply(s, WorkOn(j, w, work)))
  {
    hide JobInv, Work, Enabled, Occupying, Threads, OneSubmitted;
    var t := Apply(s, WorkOn(j, w, work));
    var js, call := s.jobs[j], CallOn(s.call, j);
    WorkKeeps(j, js, call, w, work, s.store, s.docs);
    DirectoryThreads(j, js, call, w, s.store, s.docs);
    WorkedOccupying(js, w, work, s.store);
    assert Occupies(s, w, j) <==> Occupying(js.roots[w]);
    if !s.workers[w].up { ThreadsAreUp(s, j, w); }
    WorkerStepKeeps(s, t, j, w);
    WorkStepHolds(s, t, j, w);
  }

  lemma CrashedWorkerHolds(s: Sys, w: WorkerId)
    requires w in s.workers && WorkerInv(s, w) && s.workers[w].up
    ensures WorkerInv(CrashAll(s, w), w)
  {
    var t := CrashAll(s, w);
    assert forall j :: j in s.jobs && Occupies(t, w, j) ==> Occupies(s, w, j);
  }

  lemma ElsewhereHolds(s: Sys, t: Sys, v: WorkerId)
    requires v in s.workers && v in t.workers && WorkerInv(s, v) && t.workers[v] == s.workers[v] && t.jobs.Keys == s.jobs.Keys
    requires forall j :: j in s.jobs ==> RootOn(t.jobs[j], v) == RootOn(s.jobs[j], v)
    ensures WorkerInv(t, v)
  {
    hide Occupying;
    assert forall j :: j in s.jobs ==> RootOn(t.jobs[j], v) == RootOn(s.jobs[j], v);
    assert forall j :: j in s.jobs ==> (Occupies(t, v, j) <==> Occupies(s, v, j));
  }

  lemma CrashHolds(s: Sys, w: WorkerId)
    requires Inv(s) && w in s.workers && s.workers[w].up
    ensures Inv(CrashAll(s, w))
  {
    hide JobInv, WorkerInv, OneSubmitted;
    var t := CrashAll(s, w);
    forall j | j in t.jobs ensures JobInv(j, t.jobs[j], CallOn(t.call, j), t.store, t.docs) {
      CrashKeeps(j, s.jobs[j], CallOn(s.call, j), w, s.store, s.docs);
    }
    forall v | v in t.workers ensures WorkerInv(t, v) {
      if v == w { CrashedWorkerHolds(s, w); } else { ElsewhereHolds(s, t, v); }
    }
    OneSubmittedKept(s, t);
  }

  lemma RestartedWorkerHolds(s: Sys, w: WorkerId)
    requires w in s.workers && WorkerInv(s, w) && !s.workers[w].up
    ensures WorkerInv(Apply(s, Restart(w)), w)
  {
    var t := Apply(s, Restart(w));
    forall j | j in s.jobs && Occupies(t, w, j) ensures j in BusyJobs(s, w) {
    }
    forall j | j in BusyJobs(s, w) ensures Occupies(s, w, j) {
    }
  }

  lemma RestartHolds(s: Sys, w: WorkerId)
    requires Inv(s) && Allowed(s, Restart(w))
    ensures Inv(Apply(s, Restart(w)))
  {
    hide JobInv, WorkerInv, OneSubmitted, RestartRoot, BusyJobs;
    var t := Apply(s, Restart(w));
    forall j | j in t.jobs ensures JobInv(j, t.jobs[j], CallOn(t.call, j), t.store, t.docs) {
      if w in s.jobs[j].roots { ThreadsAreUp(s, j, w); }
      RestartKeeps(j, s.jobs[j], CallOn(s.call, j), w, s.store, s.docs);
    }
    forall v | v in t.workers ensures WorkerInv(t, v) {
      if v == w { RestartedWorkerHolds(s, w); } else { ElsewhereHolds(s, t, v); }
    }
    OneSubmittedKept(s, t);
  }

  lemma CutHolds(s: Sys, j: JobId, w: WorkerId, removed: nat)
    requires Inv(s) && Allowed(s, CutRelease(j, w, removed))
    ensures Inv(Apply(s, CutRelease(j, w, removed)))
  {
    hide JobInv, WorkerInv, Unlinked;
    var u := s.(jobs := s.jobs[j := ReleaseCut(s.jobs[j], w, removed)]);
    CutKeeps(j, s.jobs[j], CallOn(s.call, j), w, removed, s.store, s.docs);
    UnlinkedStays(s.jobs[j].roots[w], s.jobs[j].roots[w].state.result.outputs[..removed]);
    CutWorker(s, u, j, w);
    WorkStepHolds(s, u, j, w);
    CrashHolds(u, w);
  }

  lemma UnlinkedStays(root: Root, outputs: seq<Output>)
    ensures Unlinked(root, outputs) == root.(disk := Unlinked(root, outputs).disk)
  {
  }

  lemma CutWorker(s: Sys, u: Sys, j: JobId, w: WorkerId)
    requires Touches(s, u, j, w) && WorkerInv(s, w) && s.workers[w].up && u.workers == s.workers
    requires w in s.jobs[j].roots && w in u.jobs[j].roots && u.jobs[j].roots[w] == s.jobs[j].roots[w].(disk := u.jobs[j].roots[w].disk)
    ensures WorkerInv(u, w)
  {
    assert Occupies(u, w, j) <==> Occupies(s, w, j);
    WorkerStepKeeps(s, u, j, w);
  }

  lemma StoreHolds(s: Sys, step: Step)
    requires Inv(s) && Allowed(s, step) && (step.StorePut? || step.StoreDoc?)
    ensures Inv(Apply(s, step))
  {
    hide JobInv, WorkerInv;
    var t := Apply(s, step);
    forall j | j in t.jobs ensures JobInv(j, t.jobs[j], CallOn(t.call, j), t.store, t.docs) {
      StoreGrows(j, s.jobs[j], CallOn(s.call, j), s.store, s.docs, t.store, t.docs);
    }
    forall v | v in t.workers ensures WorkerInv(t, v) { ElsewhereHolds(s, t, v); }
  }

  /** Main invariant: every step of the controller, the workers, the network and the store keeps it. */
  lemma StepHolds(s: Sys, step: Step)
    requires Inv(s) && Allowed(s, step)
    ensures Inv(Apply(s, step))
  {
    hide JobInv, WorkerInv;
    match step {
      case Dispatch(j, w, go) => DispatchHolds(s, j, w, go);
      case HoldForStructure(_) => ReadStepHolds(s, step);
      case Get(_) => ReadStepHolds(s, step);
      case ReconcileRow(idle, go) => ReconcileHolds(s, idle, go);
      case Send => ReadStepHolds(s, step);
      case GiveUp => ReadStepHolds(s, step);
      case SettleReply => CommitStepHolds(s, step);
      case ArchiveConfirmed => CommitStepHolds(s, step);
      case SaveResultFile => CommitStepHolds(s, step);
      case FinishRow => CommitStepHolds(s, step);
      case Deliver(j, msg, awaited, gate) => DeliverHolds(s, j, msg, awaited, gate);
      case CutRelease(j, w, removed) => CutHolds(s, j, w, removed);
      case WorkOn(j, w, work) => WorkHolds(s, j, w, work);
      case StorePut(_, _) => StoreHolds(s, step);
      case StoreDoc(_) => StoreHolds(s, step);
      case Crash(w) => CrashHolds(s, w);
      case Restart(w) => RestartHolds(s, w);
    }
  }

  lemma {:induction false} RunHolds(run: seq<Sys>, i: nat)
    requires IsRun(run) && i < |run|
    ensures Inv(run[i])
  {
    hide Inv;
    if i == 0 {
      InitHolds(run[0]);
    } else {
      RunHolds(run, i - 1);
      assert Next(run[i - 1], run[i]);
      var step :| Allowed(run[i - 1], step) && run[i] == Apply(run[i - 1], step);
      StepHolds(run[i - 1], step);
    }
  }
}
