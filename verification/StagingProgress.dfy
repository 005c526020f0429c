/** Bounded work per job, and the replay that completes a job after any crash of the controller. */
module StagingProgress {
  import opened Wrappers
  import opened StagingTypes
  import opened WorkerProtocol
  import opened ControllerProtocol
  import opened StagingSystem
  import opened StagingInvariant
  import opened StagingSafety
  import opened StagingHistory
  import opened StagingTheorems
  import opened WorkerSteps

  /** Intents a row may still commit, plus its receipt, plus its end. */
  function Potential(row: Row): int {
    if row.Terminal() then 0
    else 1 + (3 - row.submissions) + (3 - row.exports) + (3 - row.archives) + (if row.attempt in row.receipts then 0 else 1)
  }

  /** A refused submission is given back. */
  predicate Refunded(r: Row, q: Row) {
    r.state.Submitted? && (q.state.Submitted? || q.state.Queued?) && q.submissions + 1 == r.submissions
      && q.exports == r.exports && q.archives == r.archives
    && q.receipts == r.receipts
  }

  /** The results file was written again, as every replay does. */
  predicate Resaved(r: Row, q: Row) {
    q == r.(saved := q.saved) && q.saved.Some? && r.attempt in r.receipts && q.saved.value == r.receipts[r.attempt]
  }

  /** The worker is at work, not idle, or a source is not there yet: nothing is decided by this reconciliation. */
  predicate Waits(row: Row, snap: Option<WState>, idle: bool, go: bool) {
    var notNow := row.submissions < MAX_SUBMISSIONS && !go;
    match snap
    case None => !idle || notNow
    case Some(x) =>
      if x.attempt != row.attempt then x.attempt + 1 == row.attempt && x.Restarted() && notNow
      else x.Accepted? || x.Running? || x.Exporting? || (x.Restarted() && row.attempt < MAX_ATTEMPTS && notNow)
  }

  /** A delivered job whose archive receipt is already kept. */
  predicate Replays(j: JobId, row: Row, snap: Option<WState>) {
    snap.Some? && snap.value.attempt == row.attempt && snap.value.Delivered()
    && snap.value.result.stagingOnly && snap.value.result.hourMatches
    && ReadbackAccounted(snap.value.result.outputs, snap.value.receipts) && ArchiveMatches(j, row, snap.value.receipts)
  }

  /** A reconciliation leaves the row as it is exactly when it waits, replays or raises. */
  lemma ReconcileStalls(j: JobId, row: Row, snap: Option<WState>, idle: bool, go: bool)
    requires row.state.Submitted?
    ensures var o := Reconcile(j, row, snap, idle, go);
            o.row == row <==> Waits(row, snap, idle, go) || Replays(j, row, snap) || o.fault.Some?
  {
    hide ReadbackAccounted, NamedAndProven, Bytes;
  }

  /** Steps that do not write row `j`, by what they are and what they find. */
  ghost predicate Stalled(s: Sys, step: Step, j: JobId)
    requires Allowed(s, step) && j in s.jobs
  {
    var row := s.jobs[j].row;
    match step
    case Dispatch(i, _, go) => i != j || !go
    case HoldForStructure(i) => i != j
    case ReconcileRow(idle, go) =>
      s.call.job != j || Waits(row, s.call.snap, idle, go) || Replays(j, row, s.call.snap)
      || Reconcile(j, row, s.call.snap, idle, go).fault.Some?
    case SettleReply => s.call.job != j || !(s.call.msg.JobPost? && Refusal(s.call.status))
    case ArchiveConfirmed => s.call.job != j
    case SaveResultFile => s.call.job != j || row.saved == Some(row.receipts[row.attempt])
    case FinishRow => s.call.job != j
    case _ => true
  }

  /** A write uses up potential, gives back a refused submission, or writes the results file. */
  ghost predicate Counted(step: Step, r: Row, q: Row) {
    0 <= Potential(q) < Potential(r)
    || (step.SettleReply? && Refunded(r, q) && Potential(q) == Potential(r) + 1)
    || (step.SaveResultFile? && Resaved(r, q))
  }

  lemma ReconcileCounts(j: JobId, js: JobSt, snap: Option<WState>, idle: bool, go: bool, store: map<Key, Object>, docs: set<Doc>)
    requires JobInv(j, js, Reading(j, snap), store, docs)
    ensures var q := Reconcile(j, js.row, snap, idle, go).row;
            js.row.state.Submitted? && (q != js.row ==> 0 <= Potential(q) < Potential(js.row))
  {
    ReadCounts(j, js, snap, store, docs);
    hide JobInv, Bounded, BeginSubmit, ReconcileResult;
    var row := js.row;
    SubmitUses(j, row, row.attempt, go);
    if snap.Some? {
      if snap.value.Restarted() && snap.value.attempt == row.attempt {
        SubmitUses(j, row, row.attempt + 1, go);
      }
      if snap.value.HasResult() && !snap.value.Exporting? {
        ResultUses(j, row, snap.value);
      }
    }
  }

  lemma SubmitUses(j: JobId, row: Row, media: nat, go: bool)
    requires row.state.Submitted? && Bounded(row) && (media == row.attempt || row.receipts == map[])
    ensures var q := BeginSubmit(j, row, row.worker, media, go).row; q != row ==> 0 <= Potential(q) < Potential(row)
  {
  }

  lemma ResultUses(j: JobId, row: Row, remote: WState)
    requires row.state.Submitted? && Bounded(row) && remote.HasResult() && !remote.Exporting?
    ensures var q := ReconcileResult(j, row, remote).row; q != row ==> 0 <= Potential(q) < Potential(row)
  {
    hide ReadbackAccounted, NamedAndProven, Bytes;
  }

  lemma ReadCounts(j: JobId, js: JobSt, snap: Option<WState>, store: map<Key, Object>, docs: set<Doc>)
    requires JobInv(j, js, Reading(j, snap), store, docs)
    ensures js.row.state.Submitted? && Bounded(js.row)
    ensures forall b :: b in js.row.receipts ==> b == js.row.attempt
    ensures snap.Some? && snap.value.Restarted() && snap.value.attempt == js.row.attempt ==> js.row.receipts == map[]
  {
  }

  lemma SettleCounts(j: JobId, js: JobSt, call: Call, store: map<Key, Object>, docs: set<Doc>)
    requires call.Answered? && JobInv(j, js, call, store, docs)
    ensures var q := Settle(j, js.row, call.msg, call.priorAttempt, call.priorCount, call.status).row;
            if call.msg.JobPost? && Refusal(call.status)
            then q != js.row && Refunded(js.row, q) && Potential(q) == Potential(js.row) + 1
            else q == js.row
  {
    if call.msg.JobPost? && Refusal(call.status) && call.priorAttempt != js.row.attempt {
      assert js.row.receipts == map[];
    }
  }

  lemma CommitCounts(j: JobId, js: JobSt, call: Call, store: map<Key, Object>, docs: set<Doc>)
    requires JobInv(j, js, call, store, docs)
    ensures call.Archiving? ==>
              js.row.attempt !in js.row.receipts
              && var q := KeepReceipt(j, js.row, call.snap.value); q != js.row && 0 <= Potential(q) < Potential(js.row)
    ensures call.Archived? ==>
              js.row.attempt in js.row.receipts
              && var q := SaveResult(j, js.row, call.snap.value).row;
              Resaved(js.row, q) && (q == js.row <==> js.row.saved == Some(js.row.receipts[js.row.attempt]))
    ensures call.Finishing? ==>
              js.row.saved.Some? && var q := Finish(js.row); q != js.row && 0 <= Potential(q) < Potential(js.row)
  {
  }

  /**
   Every step leaves a row alone exactly where `Stalled` says so. Any other uses up potential, refunds a refused
   submission or writes the results file.
   */
  lemma StepCounts(s: Sys, step: Step, j: JobId)
    requires Inv(s) && Allowed(s, step) && j in s.jobs
    ensures j in Apply(s, step).jobs
    ensures var r, q := s.jobs[j].row, Apply(s, step).jobs[j].row;
            (q == r <==> Stalled(s, step, j)) && (q == r || Counted(step, r, q))
  {
    hide JobInv, WorkerInv, Reconcile, Settle, Handle, Work, Enabled, BeginSubmit, OneSubmitted, OwnersExist, Counted, Waits, Replays,
         NoneSubmitted, Potential, Refunded, Resaved;
    var js, call := s.jobs[j], CallOn(s.call, j);
    assert JobInv(j, js, call, s.store, s.docs);
    match step {
      case Dispatch(i, w, go) => if i == j { DispatchCounts(j, js, w, go, s.store, s.docs); UsesUp(step, js.row); }
      case HoldForStructure(i) => if i == j { HoldCounts(j, js, s.store, s.docs); UsesUp(step, js.row); }
      case ReconcileRow(idle, go) => if s.call.job == j { ReadsCount(s, step, j); }
      case SettleReply => if s.call.job == j { SettleStepCounts(s, step, j); }
      case ArchiveConfirmed => if s.call.job == j { CommitStepCounts(s, step, j); }
      case SaveResultFile => if s.call.job == j { CommitStepCounts(s, step, j); }
      case FinishRow => if s.call.job == j { CommitStepCounts(s, step, j); }
      case _ => UnrelatedRow(s, step, j);
    }
  }

  lemma ReadsCount(s: Sys, step: Step, j: JobId)
    requires step.ReconcileRow? && Allowed(s, step) && s.call.job == j && j in s.jobs
    requires JobInv(j, s.jobs[j], s.call, s.store, s.docs)
    ensures var r, q := s.jobs[j].row, Apply(s, step).jobs[j].row;
            (q == r <==> Stalled(s, step, j)) && (q == r || Counted(step, r, q))
  {
    hide JobInv, Reconcile, Waits, Replays, Counted, Potential;
    ReconcileCounts(j, s.jobs[j], s.call.snap, step.idle, step.go, s.store, s.docs);
    ReconcileStalls(j, s.jobs[j].row, s.call.snap, step.idle, step.go);
    UsesUp(step, s.jobs[j].row);
  }

  lemma SettleStepCounts(s: Sys, step: Step, j: JobId)
    requires step.SettleReply? && Allowed(s, step) && s.call.job == j && j in s.jobs
    requires JobInv(j, s.jobs[j], s.call, s.store, s.docs)
    ensures var r, q := s.jobs[j].row, Apply(s, step).jobs[j].row;
            (q == r <==> Stalled(s, step, j)) && (q == r || Counted(step, r, q))
  {
    hide JobInv, Settle, Counted, Potential, Refunded;
    SettleCounts(j, s.jobs[j], s.call, s.store, s.docs);
    GivesBack(step, s.jobs[j].row);
  }

  lemma CommitStepCounts(s: Sys, step: Step, j: JobId)
    requires (step.ArchiveConfirmed? || step.SaveResultFile? || step.FinishRow?) && Allowed(s, step) && s.call.job == j && j in s.jobs
    requires JobInv(j, s.jobs[j], s.call, s.store, s.docs)
    ensures var r, q := s.jobs[j].row, Apply(s, step).jobs[j].row;
            (q == r <==> Stalled(s, step, j)) && (q == r || Counted(step, r, q))
  {
    hide JobInv, Counted, Potential, Resaved;
    CommitCounts(j, s.jobs[j], s.call, s.store, s.docs);
    UsesUp(step, s.jobs[j].row);
    GivesBack(step, s.jobs[j].row);
  }

  lemma UsesUp(step: Step, r: Row)
    ensures forall q: Row :: 0 <= Potential(q) < Potential(r) ==> Counted(step, r, q)
  {
  }

  lemma GivesBack(step: Step, r: Row)
    ensures step.SettleReply? ==> forall q: Row :: Refunded(r, q) && Potential(q) == Potential(r) + 1 ==> Counted(step, r, q)
    ensures step.SaveResultFile? ==> forall q: Row :: Resaved(r, q) ==> Counted(step, r, q)
  {
  }

  lemma HoldCounts(j: JobId, js: JobSt, store: map<Key, Object>, docs: set<Doc>)
    requires JobInv(j, js, Idle, store, docs) && js.row.state.Queued?
    ensures var q := js.row.(state := HeldStructure); q != js.row && 0 <= Potential(q) < Potential(js.row)
  {
  }

  lemma DispatchCounts(j: JobId, js: JobSt, w: WorkerId, go: bool, store: map<Key, Object>, docs: set<Doc>)
    requires JobInv(j, js, Idle, store, docs) && js.row.state.Queued?
    ensures var q := BeginSubmit(j, js.row, w, 1, go).row;
            if go then q != js.row && 0 <= Potential(q) < Potential(js.row) else q == js.row
  {
  }

  lemma QueuedPotential(j: JobId, js: JobSt, store: map<Key, Object>, docs: set<Doc>)
    requires JobInv(j, js, Idle, store, docs) && js.row.state.Queued?
    ensures Potential(js.row) == 11
  {
  }

  /** How often a job's potential went down, and how often it was refunded, in the first `n` steps of a run. */
  ghost function Uses(run: seq<Sys>, j: JobId, n: nat): nat
    requires n < |run| && forall i :: 0 <= i <= n ==> j in run[i].jobs
  {
    if n == 0 then 0
    else Uses(run, j, n - 1) + (if Potential(run[n].jobs[j].row) < Potential(run[n - 1].jobs[j].row) then 1 else 0)
  }

  ghost function Refunds(run: seq<Sys>, j: JobId, n: nat): nat
    requires n < |run| && forall i :: 0 <= i <= n ==> j in run[i].jobs
  {
    if n == 0 then 0
    else Refunds(run, j, n - 1) + (if Refunded(run[n - 1].jobs[j].row, run[n].jobs[j].row) then 1 else 0)
  }

  lemma KeysStay(run: seq<Sys>, j: JobId, i: nat)
    requires IsRun(run) && j in run[0].jobs && i < |run|
    ensures j in run[i].jobs
  {
    RunLater(run, 0, i);
  }

  /** In any run a job changes its row at most eleven times more often than it is refunded, resaves apart. */
  lemma {:induction false} WorkIsBounded(run: seq<Sys>, j: JobId, n: nat)
    requires IsRun(run) && j in run[0].jobs && n < |run|
    ensures forall i :: 0 <= i <= n ==> j in run[i].jobs
    ensures 0 <= Potential(run[n].jobs[j].row) <= 11 + Refunds(run, j, n) - Uses(run, j, n)
  {
    hide Inv, JobInv;
    forall i | 0 <= i <= n ensures j in run[i].jobs { KeysStay(run, j, i); }
    if n == 0 {
      JobHolds(run, 0, j);
      QueuedPotential(j, run[0].jobs[j], run[0].store, run[0].docs);
    } else {
      WorkIsBounded(run, j, n - 1);
      RunHolds(run, n - 1);
      assert Next(run[n - 1], run[n]);
      var step :| Allowed(run[n - 1], step) && run[n] == Apply(run[n - 1], step);
      StepCounts(run[n - 1], step, j);
    }
  }

  // ----- replay after a crash -----

  ghost function After(s: Sys, steps: seq<Step>): Option<Sys>
    decreases |steps|
  {
    if steps == [] then Some(s)
    else if Allowed(s, steps[0]) then After(Apply(s, steps[0]), steps[1..])
    else None
  }

  lemma AfterStep(s: Sys, step: Step, rest: seq<Step>)
    requires Allowed(s, step)
    ensures After(s, [step] + rest) == After(Apply(s, step), rest)
  {
    assert ([step] + rest)[1..] == rest;
  }

  /** An idle controller with a delivered job on a running, idle worker. */
  ghost predicate AtDelivery(s: Sys, j: JobId) {
    s.call.Idle? && j in s.jobs && s.jobs[j].row.state.Submitted?
    && var w := s.jobs[j].row.worker;
    w in s.workers && s.workers[w].up && s.workers[w].active == {}
    && w in s.jobs[j].roots && s.jobs[j].roots[w].state.Delivered()
  }

  /** Its receipt is kept, or an upload is left. */
  predicate CanArchive(row: Row) { row.attempt in row.receipts || row.archives < MAX_ARCHIVES }

  ghost predicate Replayable(s: Sys, j: JobId) { AtDelivery(s, j) && CanArchive(s.jobs[j].row) }

  /** The row is verified with exactly the receipt of the delivered outputs. */
  ghost predicate Completed(t: Option<Sys>, j: JobId, receipt: Receipt) {
    t.Some? && j in t.value.jobs && t.value.jobs[j].row.state.StagedVerified?
    && t.value.jobs[j].row.result == Some(receipt) && t.value.jobs[j].row.saved == Some(receipt)
  }

  /** A directory whose delivery the controller may complete now. */
  ghost predicate Ready(s: Sys, j: JobId, w: WorkerId, receipt: Receipt) {
    Inv(s) && j in s.jobs && s.jobs[j].row.worker == w && w in s.workers && s.workers[w].up && s.workers[w].active == {}
    && w in s.jobs[j].roots && s.jobs[j].roots[w].state.Delivered()
    && receipt == Summary(j, s.jobs[j].row.attempt, s.jobs[j].roots[w].state.receipts)
  }

  lemma ReplayFinish(s: Sys, j: JobId, w: WorkerId, receipt: Receipt)
    requires Ready(s, j, w, receipt) && s.call == Finishing(j)
    ensures Completed(After(s, [FinishRow]), j, receipt)
  {
    assert JobInv(j, s.jobs[j], s.call, s.store, s.docs);
    AfterStep(s, FinishRow, []);
    assert [FinishRow] + [] == [FinishRow];
  }

  lemma ReplayAnswered(s: Sys, j: JobId, w: WorkerId, receipt: Receipt)
    requires Ready(s, j, w, receipt) && s.call.Answered? && s.call.job == j && s.call.msg == ReleasePost(w) && s.call.status == 200
    ensures Completed(After(s, [SettleReply, FinishRow]), j, receipt)
  {
    hide JobInv, WorkerInv, Completed;
    StepHolds(s, SettleReply);
    ReplayFinish(Apply(s, SettleReply), j, w, receipt);
    AfterStep(s, SettleReply, [FinishRow]);
    assert [SettleReply] + [FinishRow] == [SettleReply, FinishRow];
  }

  lemma ReleaseAccepted(j: JobId, js: JobSt, call: Call, w: WorkerId, store: map<Key, Object>, docs: set<Doc>)
    requires JobInv(j, js, call, store, docs) && w in js.roots && js.roots[w].state.Delivered() && ReleasePost(w) in js.posts
    ensures var answer := Handle(j, js, {}, ReleasePost(w), Open); var js' := Handled(js, ReleasePost(w), answer);
            answer.status == 200 && answer.active == {} && js'.row == js.row && js'.roots.Keys == js.roots.Keys
            && js'.roots[w].state.Released? && js'.roots[w].state.receipts == js.roots[w].state.receipts
  {
    if js.roots[w].state.Exported? {
      ReleaseReady(j, js, call, w, store, docs);
      AllRemovable(js.roots[w].state.result.outputs);
    }
  }

  /** The worker answers a release of a delivered job with 200 and keeps its receipts. */
  lemma ReleaseAnswered(s: Sys, j: JobId, w: WorkerId, receipt: Receipt)
    requires Ready(s, j, w, receipt) && s.call.Waiting? && s.call.job == j && s.call.msg == ReleasePost(w)
    ensures Allowed(s, Deliver(j, ReleasePost(w), true, Open))
    ensures var t := Apply(s, Deliver(j, ReleasePost(w), true, Open));
            j in t.jobs && t.jobs[j].row == s.jobs[j].row && w in t.jobs[j].roots && t.jobs[j].roots[w].state.Delivered()
            && t.jobs[j].roots[w].state.receipts == s.jobs[j].roots[w].state.receipts
            && w in t.workers && t.workers[w].up && t.workers[w].active == {}
            && t.call.Answered? && t.call.job == j && t.call.msg == ReleasePost(w) && t.call.status == 200
  {
    hide JobInv, WorkerInv, OneSubmitted, OwnersExist, Handle, Handled;
    assert JobInv(j, s.jobs[j], s.call, s.store, s.docs);
    WaitingPosts(j, s.jobs[j], s.call, s.store, s.docs);
    ReleaseAccepted(j, s.jobs[j], s.call, w, s.store, s.docs);
  }

  lemma WaitingPosts(j: JobId, js: JobSt, call: Call, store: map<Key, Object>, docs: set<Doc>)
    requires JobInv(j, js, call, store, docs) && call.Waiting?
    ensures call.msg in js.posts
  {
  }

  lemma ReplayWaiting(s: Sys, j: JobId, w: WorkerId, receipt: Receipt)
    requires Ready(s, j, w, receipt) && s.call.Waiting? && s.call.job == j && s.call.msg == ReleasePost(w)
    ensures Completed(After(s, [Deliver(j, ReleasePost(w), true, Open), SettleReply, FinishRow]), j, receipt)
  {
    hide JobInv, WorkerInv, Completed, Apply, Allowed, Inv;
    var step := Deliver(j, ReleasePost(w), true, Open);
    ReleaseAnswered(s, j, w, receipt);
    StepHolds(s, step);
    ReplayAnswered(Apply(s, step), j, w, receipt);
    AfterStep(s, step, [SettleReply, FinishRow]);
    assert [step] + [SettleReply, FinishRow] == [step, SettleReply, FinishRow];
  }

  lemma ReplaySending(s: Sys, j: JobId, w: WorkerId, receipt: Receipt)
    requires Ready(s, j, w, receipt) && s.call.Sending? && s.call.job == j && s.call.msg == ReleasePost(w)
    ensures Completed(After(s, [Send, Deliver(j, ReleasePost(w), true, Open), SettleReply, FinishRow]), j, receipt)
  {
    hide JobInv, WorkerInv, Completed;
    var rest := [Deliver(j, ReleasePost(w), true, Open), SettleReply, FinishRow];
    StepHolds(s, Send);
    ReplayWaiting(Apply(s, Send), j, w, receipt);
    AfterStep(s, Send, rest);
    assert [Send] + rest == [Send, Deliver(j, ReleasePost(w), true, Open), SettleReply, FinishRow];
  }

  lemma ReplayArchived(s: Sys, j: JobId, w: WorkerId, receipt: Receipt)
    requires Ready(s, j, w, receipt) && s.call == Archived(j, Some(s.jobs[j].roots[w].state))
    ensures Completed(After(s, ReplayTail(j, w, s.jobs[j].roots[w].state.Released?)), j, receipt)
  {
    assert JobInv(j, s.jobs[j], s.call, s.store, s.docs);
    hide JobInv, WorkerInv, Completed;
    StepHolds(s, SaveResultFile);
    var t := Apply(s, SaveResultFile);
    if s.jobs[j].roots[w].state.Released? {
      ReplayFinish(t, j, w, receipt);
      AfterStep(s, SaveResultFile, [FinishRow]);
    } else {
      ReplaySending(t, j, w, receipt);
      AfterStep(s, SaveResultFile, [Send, Deliver(j, ReleasePost(w), true, Open), SettleReply, FinishRow]);
    }
  }

  /** From the results file on. */
  function ReplayTail(j: JobId, w: WorkerId, released: bool): seq<Step> {
    [SaveResultFile] + if released then [FinishRow] else [Send, Deliver(j, ReleasePost(w), true, Open), SettleReply, FinishRow]
  }

  /** The next reconciliation of a delivered job, from the worker's reply to the final update. */
  function ReplaySteps(j: JobId, w: WorkerId, archived: bool, released: bool): seq<Step> {
    [Get(j)] + ([ReconcileRow(true, true)] + ((if archived then [] else [ArchiveConfirmed]) + ReplayTail(j, w, released)))
  }

  lemma ReplayRead(s: Sys, j: JobId)
    requires Inv(s) && Replayable(s, j)
    ensures Allowed(s, Get(j))
    ensures var t := Apply(s, Get(j)); var row := s.jobs[j].row; var x := s.jobs[j].roots[row.worker].state;
            Inv(t) && Allowed(t, ReconcileRow(true, true)) && t == s.(call := Reading(j, Some(x)))
            && Reconcile(j, row, Some(x), true, true) == BeginArchive(j, row, x)
            && ReadbackAccounted(x.result.outputs, x.receipts)
            && x.receipts == ReceiptsOf(x.result.outputs) && (row.attempt in row.receipts ==> ArchiveMatches(j, row, x.receipts))
  {
    hide JobInv, WorkerInv, ReadbackAccounted, Reconcile, BeginArchive, ArchiveMatches, OneSubmitted, OwnersExist;
    assert JobInv(j, s.jobs[j], s.call, s.store, s.docs);
    DeliveredRead(j, s.jobs[j], s.call, s.store, s.docs);
    hide Inv;
    StepHolds(s, Get(j));
  }

  /** A submitted row whose job is delivered reads a state that passes every check of the delivery branch. */
  lemma DeliveredRead(j: JobId, js: JobSt, call: Call, store: map<Key, Object>, docs: set<Doc>)
    requires JobInv(j, js, call, store, docs) && js.row.state.Submitted?
    requires js.row.worker in js.roots && js.roots[js.row.worker].state.Delivered()
    ensures var row, x := js.row, js.roots[js.row.worker].state;
            Reconcile(j, row, Some(x), true, true) == BeginArchive(j, row, x)
            && ReadbackAccounted(x.result.outputs, x.receipts)
            && x.receipts == ReceiptsOf(x.result.outputs) && (row.attempt in row.receipts ==> ArchiveMatches(j, row, x.receipts))
  {
    hide ReadbackAccounted;
    ReceiptsAccounted(js.roots[js.row.worker].state.result.outputs);
  }

  /**
   Wherever a crash left a delivered job between archive and final update, one undisturbed
   reconciliation verifies it with the receipt of the same outputs.
   */
  lemma ReplayCompletes(s: Sys, j: JobId)
    requires Inv(s) && Replayable(s, j)
    ensures var row := s.jobs[j].row; var x := s.jobs[j].roots[row.worker].state;
            Completed(After(s, ReplaySteps(j, row.worker, row.attempt in row.receipts, x.Released?)), j,
                      Summary(j, row.attempt, ReceiptsOf(x.result.outputs)))
  {
    hide JobInv, WorkerInv, Completed, Reconcile;
    var row := s.jobs[j].row;
    var w := row.worker;
    var x := s.jobs[j].roots[w].state;
    var archived, receipt := row.attempt in row.receipts, Summary(j, row.attempt, x.receipts);
    var tail := ReplayTail(j, w, x.Released?);
    ReplayRead(s, j);
    var t := Apply(s, Get(j));
    StepHolds(t, ReconcileRow(true, true));
    var u := Apply(t, ReconcileRow(true, true));
    if archived {
      ReplayArchived(u, j, w, receipt);
      assert [] + tail == tail;
    } else {
      StepHolds(u, ArchiveConfirmed);
      ReplayArchived(Apply(u, ArchiveConfirmed), j, w, receipt);
      AfterStep(u, ArchiveConfirmed, tail);
    }
    var rest := (if archived then [] else [ArchiveConfirmed]) + tail;
    AfterStep(t, ReconcileRow(true, true), rest);
    AfterStep(s, Get(j), [ReconcileRow(true, true)] + rest);
  }

  /** With no receipt kept and the third upload spent, the next reconciliation holds the job for its receipt. */
  lemma ReplayExhausted(s: Sys, j: JobId, idle: bool, go: bool)
    requires Inv(s) && AtDelivery(s, j) && !CanArchive(s.jobs[j].row)
    ensures var t := After(s, [Get(j), ReconcileRow(idle, go)]);
            t.Some? && t.value.call.Idle? && j in t.value.jobs && t.value.jobs[j].row == s.jobs[j].row.(state := HeldReceipt)
    ensures !Allowed(After(s, [Get(j), ReconcileRow(idle, go)]).value, ArchiveConfirmed)
  {
    hide JobInv, WorkerInv, OneSubmitted, OwnersExist, ReadbackAccounted, Reconcile, BeginArchive;
    assert JobInv(j, s.jobs[j], s.call, s.store, s.docs);
    ExhaustedRead(j, s.jobs[j], s.call, idle, go, s.store, s.docs);
    var t := Apply(s, Get(j));
    AfterStep(s, Get(j), [ReconcileRow(idle, go)]);
    AfterStep(t, ReconcileRow(idle, go), []);
    assert [Get(j)] + [ReconcileRow(idle, go)] == [Get(j), ReconcileRow(idle, go)];
    assert [ReconcileRow(idle, go)] + [] == [ReconcileRow(idle, go)];
  }

  lemma ExhaustedRead(j: JobId, js: JobSt, call: Call, idle: bool, go: bool, store: map<Key, Object>, docs: set<Doc>)
    requires JobInv(j, js, call, store, docs) && js.row.state.Submitted? && !CanArchive(js.row)
    requires js.row.worker in js.roots && js.roots[js.row.worker].state.Delivered()
    ensures Reconcile(j, js.row, Some(js.roots[js.row.worker].state), idle, go) == Done(js.row.(state := HeldReceipt))
  {
    DeliveredRead(j, js, call, store, docs);
    DeliveredAttempt(j, js, call, store, docs);
    hide JobInv, ReadbackAccounted, Reconcile;
    ReadsAlike(j, js.row, js.roots[js.row.worker].state, idle, go);
  }

  lemma DeliveredAttempt(j: JobId, js: JobSt, call: Call, store: map<Key, Object>, docs: set<Doc>)
    requires JobInv(j, js, call, store, docs) && js.row.state.Submitted?
    requires js.row.worker in js.roots && js.roots[js.row.worker].state.Delivered()
    ensures js.roots[js.row.worker].state.attempt == js.row.attempt
  {
  }

  /** The idle check and the source checks play no part once a result is there. */
  lemma ReadsAlike(j: JobId, row: Row, x: WState, idle: bool, go: bool)
    requires x.attempt == row.attempt && x.HasResult()
    ensures Reconcile(j, row, Some(x), idle, go) == Reconcile(j, row, Some(x), true, true)
  {
    hide ReadbackAccounted, NamedAndProven, Bytes;
  }

  /**
   Whatever the controller was doing when it crashed, one undisturbed reconciliation of a delivered job then verifies
   it, with the receipt kept before the crash if there was one, exactly if a receipt was kept or an upload is left.
   A crash in the third upload is the one that is not made good: the job is held for its receipt.
   */
  lemma CrashReplays(run: seq<Sys>, i: nat, j: JobId)
    requires IsRun(run) && i < |run| && AtDelivery(Apply(run[i], GiveUp), j)
    ensures var s := Apply(run[i], GiveUp); var row := s.jobs[j].row; var x := s.jobs[j].roots[row.worker].state;
            var receipt := Summary(j, row.attempt, ReceiptsOf(x.result.outputs));
            (Completed(After(s, ReplaySteps(j, row.worker, row.attempt in row.receipts, x.Released?)), j, receipt) <==> CanArchive(row))
            && (row.attempt in row.receipts ==> row.receipts[row.attempt] == receipt)
            && (!CanArchive(row) ==> Held(After(s, [Get(j), ReconcileRow(true, true)]), j))
  {
    hide JobInv, WorkerInv, Completed, After, ReplaySteps, ReplayTail, AtDelivery, CanArchive;
    RunHolds(run, i);
    StepHolds(run[i], GiveUp);
    var s := Apply(run[i], GiveUp);
    DeliveryRow(s, j);
    if CanArchive(s.jobs[j].row) {
      ReplayCompletes(s, j);
    } else {
      ReplayFails(s, j);
      NotCompleted(j);
    }
    if s.jobs[j].row.attempt in s.jobs[j].row.receipts {
      ReceiptKept(j, s.jobs[j], s.call, s.store, s.docs);
    }
  }

  lemma NotCompleted(j: JobId)
    ensures forall receipt :: !Completed(None, j, receipt)
  {
  }

  ghost predicate Held(t: Option<Sys>, j: JobId) {
    t.Some? && j in t.value.jobs && t.value.jobs[j].row.state.HeldReceipt?
  }

  lemma DeliveryRow(s: Sys, j: JobId)
    requires AtDelivery(s, j)
    ensures j in s.jobs && s.jobs[j].row.state.Submitted? && s.jobs[j].row.worker in s.jobs[j].roots
    ensures s.jobs[j].roots[s.jobs[j].row.worker].state.Delivered() && s.call.Idle?
  {
  }

  lemma ReplayFails(s: Sys, j: JobId)
    requires Inv(s) && AtDelivery(s, j) && !CanArchive(s.jobs[j].row)
    ensures Held(After(s, [Get(j), ReconcileRow(true, true)]), j)
    ensures var x := s.jobs[j].roots[s.jobs[j].row.worker].state;
            After(s, ReplaySteps(j, s.jobs[j].row.worker, false, x.Released?)).None?
    ensures s.jobs[j].row.attempt !in s.jobs[j].row.receipts
  {
    hide Inv, Apply, Allowed, After, ReplayTail;
    var w := s.jobs[j].row.worker;
    var first, rest := [Get(j), ReconcileRow(true, true)], [ArchiveConfirmed] + ReplayTail(j, w, s.jobs[j].roots[w].state.Released?);
    ReplayExhausted(s, j, true, true);
    assert ReplaySteps(j, w, false, s.jobs[j].roots[w].state.Released?) == first + rest;
    AfterBoth(s, first, rest);
    AfterRefused(After(s, first).value, ArchiveConfirmed, ReplayTail(j, w, s.jobs[j].roots[w].state.Released?));
  }

  lemma AfterRefused(s: Sys, step: Step, rest: seq<Step>)
    requires !Allowed(s, step)
    ensures After(s, [step] + rest) == None
  {
  }

  lemma {:induction false} AfterBoth(s: Sys, a: seq<Step>, b: seq<Step>)
    ensures After(s, a + b) == if After(s, a).Some? then After(After(s, a).value, b) else None
    decreases |a|
  {
    hide Apply, Allowed;
    if a == [] {
      assert a + b == b;
    } else {
      assert a + b == [a[0]] + (a[1..] + b) && a == [a[0]] + a[1..];
      if Allowed(s, a[0]) {
        AfterStep(s, a[0], a[1..] + b);
        AfterStep(s, a[0], a[1..]);
        AfterBoth(Apply(s, a[0]), a[1..], b);
      } else {
        AfterRefused(s, a[0], a[1..] + b);
        AfterRefused(s, a[0], a[1..]);
      }
    }
  }

  lemma ReceiptKept(j: JobId, js: JobSt, call: Call, store: map<Key, Object>, docs: set<Doc>)
    requires JobInv(j, js, call, store, docs) && js.row.attempt in js.row.receipts
    requires js.row.worker in js.roots && js.roots[js.row.worker].state.Delivered() && js.row.state.Submitted?
    ensures js.row.receipts[js.row.attempt] == Summary(j, js.row.attempt, ReceiptsOf(js.roots[js.row.worker].state.result.outputs))
  {
  }
}
