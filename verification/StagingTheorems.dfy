/** What holds in every run, whatever is lost, delayed or crashed. */
module StagingTheorems {
  import opened Wrappers
  import opened StagingTypes
  import opened WorkerProtocol
  import opened ControllerProtocol
  import opened StagingSystem
  import opened StagingInvariant
  import opened StagingSafety
  import opened StagingHistory

  lemma JobHolds(run: seq<Sys>, i: nat, j: JobId)
    requires IsRun(run) && i < |run| && j in run[i].jobs
    ensures JobInv(j, run[i].jobs[j], CallOn(run[i].call, j), run[i].store, run[i].docs)
  {
    hide JobInv;
    RunHolds(run, i);
  }

  // ----- admission -----

  /** Over the whole run a job gets a directory on at most one worker. */
  lemma OneWorkerAdmits(run: seq<Sys>, j: JobId, i: nat, w: WorkerId, k: nat, v: WorkerId)
    requires IsRun(run) && i <= k < |run| && j in run[i].jobs && w in run[i].jobs[j].roots
    requires j in run[k].jobs && v in run[k].jobs[j].roots
    ensures w == v == run[k].jobs[j].row.worker
  {
    RunLater(run, i, k);
    JobHolds(run, k, j);
  }

  /** A queued job, refused before or not, has nothing anywhere: it may go to any worker. */
  lemma QueuedIsUntouched(run: seq<Sys>, i: nat, j: JobId)
    requires IsRun(run) && i < |run| && j in run[i].jobs && run[i].jobs[j].row.state.Queued?
    ensures var js := run[i].jobs[j];
            js.posts == multiset{} && js.roots == map[] && js.row.submissions == 0 && js.row.attempt == 0 && js.sent == 0
  {
    JobHolds(run, i, j);
  }

  /** Only a refusal of a job's sole uncertain POST, which no worker admitted, puts it back in the queue. */
  lemma RequeuedByRefusal(run: seq<Sys>, i: nat, j: JobId)
    requires IsRun(run) && 0 < i < |run| && j in run[i - 1].jobs && run[i - 1].jobs[j].row.state.Submitted?
    requires j in run[i].jobs && run[i].jobs[j].row.state.Queued?
    ensures var call, js := run[i - 1].call, run[i - 1].jobs[j];
            call.Answered? && call.job == j && call.msg.JobPost? && Refusal(call.status)
            && js.row.submissions == 1 && js.posts == multiset{} && js.roots == map[]
  {
    hide JobInv, Inv, Apply, Allowed, Settle;
    JobHolds(run, i - 1, j);
    JobHolds(run, i, j);
    RunHolds(run, i - 1);
    assert Next(run[i - 1], run[i]);
    var step :| Allowed(run[i - 1], step) && run[i] == Apply(run[i - 1], step);
    var s, t := run[i - 1], run[i];
    QueuedHasNothing(j, t.jobs[j], CallOn(t.call, j), t.store, t.docs);
    if step.SettleReply? {
      SettledRow(s, j);
      SettleRequeues(j, s.jobs[j].row, s.call);
      RefusedCall(j, s.jobs[j], s.call, s.store, s.docs);
    } else {
      OthersLeaveQueue(s, step, j);
    }
  }

  lemma SettledRow(s: Sys, j: JobId)
    requires Allowed(s, SettleReply) && j in s.jobs
    ensures var t := Apply(s, SettleReply);
            j in t.jobs && t.jobs[j].posts == s.jobs[j].posts && t.jobs[j].roots == s.jobs[j].roots
            && (s.call.job != j ==> t.jobs[j].row == s.jobs[j].row)
            && (s.call.job == j ==>
                  t.jobs[j].row == Settle(j, s.jobs[j].row, s.call.msg, s.call.priorAttempt, s.call.priorCount, s.call.status).row)
    ensures s.call.Answered?
  {
    hide Settle;
  }

  lemma OthersLeaveQueue(s: Sys, step: Step, j: JobId)
    requires Allowed(s, step) && j in s.jobs && s.jobs[j].row.state.Submitted? && !step.SettleReply?
    ensures j in Apply(s, step).jobs && !Apply(s, step).jobs[j].row.state.Queued?
  {
    hide Reconcile, Handle, Work, Enabled, NoneSubmitted, CrashAll, BeginSubmit;
    match step {
      case ReconcileRow(idle, go) =>
        if s.call.job == j { ReconcileLeavesQueue(j, s.jobs[j].row, s.call.snap, idle, go); }
      case Dispatch(_, _, _) =>
      case HoldForStructure(_) =>
      case ArchiveConfirmed =>
      case SaveResultFile =>
      case FinishRow =>
      case _ => UnrelatedRow(s, step, j);
    }
  }

  lemma QueuedHasNothing(j: JobId, js: JobSt, call: Call, store: map<Key, Object>, docs: set<Doc>)
    requires JobInv(j, js, call, store, docs) && js.row.state.Queued?
    ensures js.row.submissions == 0 && js.row.attempt == 0 && js.posts == multiset{} && js.roots == map[]
  {
  }

  lemma ReconcileLeavesQueue(j: JobId, row: Row, snap: Option<WState>, idle: bool, go: bool)
    requires row.state.Submitted?
    ensures !Reconcile(j, row, snap, idle, go).row.state.Queued?
  {
  }

  lemma SettleRequeues(j: JobId, row: Row, call: Call)
    requires call.Answered? && row.state.Submitted?
    ensures var o := Settle(j, row, call.msg, call.priorAttempt, call.priorCount, call.status);
            o.row.state.Queued? ==> call.msg.JobPost? && Refusal(call.status) && o.row.submissions == call.priorCount
  {
  }

  lemma RefusedCall(j: JobId, js: JobSt, call: Call, store: map<Key, Object>, docs: set<Doc>)
    requires JobInv(j, js, call, store, docs)
    ensures call.Answered? && call.msg.JobPost? && Refusal(call.status) ==> call.priorCount + 1 == js.row.submissions
  {
  }

  /** POSTs still in flight for a job are among its unrefunded submissions. */
  lemma IntentsBound(run: seq<Sys>, i: nat, j: JobId)
    requires IsRun(run) && i < |run| && j in run[i].jobs
    ensures var js := run[i].jobs[j];
            JobPosts(js) <= js.row.submissions <= 3 && js.row.exports <= 3 && js.row.archives <= 3
            && js.runs + Exports(js) <= js.row.exports
            && forall m :: m in js.posts ==> m.worker == js.row.worker && (m.JobPost? ==> 1 <= m.attempt <= js.row.attempt)
  {
    JobHolds(run, i, j);
  }

  // ----- attempts -----

  /** The owner is absent, interrupted one attempt behind, or at the row's attempt. */
  lemma AttemptLockstep(run: seq<Sys>, i: nat, j: JobId)
    requires IsRun(run) && i < |run| && j in run[i].jobs && run[i].jobs[j].row.state.Submitted?
    ensures var js := run[i].jobs[j];
            match StateOn(js, js.row.worker)
            case None => js.row.attempt == 1
            case Some(s) => s.attempt == js.row.attempt || (s.attempt + 1 == js.row.attempt && s == Failed(s.attempt, WorkerRestarted))
  {
    JobHolds(run, i, j);
  }

  /**
   `remote_media_attempt_differs` and `remote_readback_accounting_differs` never arise, and once an
   export was ever asked for none of the other checks can fail either.
   */
  lemma NoFault(run: seq<Sys>, i: nat, idle: bool, go: bool)
    requires IsRun(run) && i < |run| && run[i].call.Reading? && run[i].call.job in run[i].jobs
    ensures var j := run[i].call.job; var row := run[i].jobs[j].row;
            var fault := Reconcile(j, row, run[i].call.snap, idle, go).fault;
            fault != Some(MediaAttemptDiffers) && fault != Some(ReadbackAccountingDiffers)
            && (row.exports > 0 ==> fault == None)
  {
    var s := run[i];
    var j, snap := s.call.job, s.call.snap;
    JobHolds(run, i, j);
    NoReadFault(j, s.jobs[j], snap, idle, go, s.store, s.docs);
  }

  lemma NoReadFault(j: JobId, js: JobSt, snap: Option<WState>, idle: bool, go: bool, store: map<Key, Object>, docs: set<Doc>)
    requires JobInv(j, js, Reading(j, snap), store, docs)
    ensures var fault := Reconcile(j, js.row, snap, idle, go).fault;
            fault != Some(MediaAttemptDiffers) && fault != Some(ReadbackAccountingDiffers) && (js.row.exports > 0 ==> fault == None)
  {
    if snap.Some? && snap.value.Delivered() {
      DeliveredAccounted(j, js, snap, store, docs);
    }
    hide ReadbackAccounted, NamedAndProven, Bytes, Execution, Threads, MediaKept, Delivery;
  }

  lemma ReceiptsAccounted(outputs: seq<Output>)
    requires UniqueKeys(outputs)
    ensures ReadbackAccounted(outputs, ReceiptsOf(outputs))
  {
    var receipts := ReceiptsOf(outputs);
    assert VerifiedIdentities(receipts) == OutputIdentities(outputs) by {
      forall x | x in OutputIdentities(outputs) ensures x in VerifiedIdentities(receipts) {
        var i :| 0 <= i < |outputs| && x == Identity(outputs[i].key, outputs[i].size, outputs[i].sha);
        assert receipts[i].verified && x == Identity(receipts[i].key, receipts[i].bytes, receipts[i].sha);
      }
    }
    DistinctIdentities(outputs);
  }

  lemma {:induction false} DistinctIdentities(outputs: seq<Output>)
    requires UniqueKeys(outputs)
    ensures |OutputIdentities(outputs)| == |outputs|
  {
    if outputs == [] {
      assert OutputIdentities(outputs) == {};
    } else {
      var n := |outputs| - 1;
      var front, last := outputs[..n], Identity(outputs[n].key, outputs[n].size, outputs[n].sha);
      DistinctIdentities(front);
      assert OutputIdentities(outputs) == OutputIdentities(front) + {last} by {
        forall x | x in OutputIdentities(outputs) ensures x in OutputIdentities(front) + {last} {
          var i :| 0 <= i < |outputs| && x == Identity(outputs[i].key, outputs[i].size, outputs[i].sha);
          if i < n { assert front[i] == outputs[i]; }
        }
        forall x | x in OutputIdentities(front) ensures x in OutputIdentities(outputs) {
          var i :| 0 <= i < |front| && x == Identity(front[i].key, front[i].size, front[i].sha);
          assert outputs[i] == front[i];
        }
      }
      assert last !in OutputIdentities(front);
    }
  }

  lemma DeliveredAccounted(j: JobId, js: JobSt, snap: Option<WState>, store: map<Key, Object>, docs: set<Doc>)
    requires JobInv(j, js, Reading(j, snap), store, docs) && snap.Some? && snap.value.Delivered()
    ensures ReadbackAccounted(snap.value.result.outputs, snap.value.receipts)
    ensures snap.value.result.stagingOnly && snap.value.result.hourMatches
  {
    ReceiptsAccounted(snap.value.result.outputs);
  }

  /** `multiple_jobs_per_worker` never arises. */
  lemma OneSubmittedPerWorker(run: seq<Sys>, i: nat, j: JobId, k: JobId)
    requires IsRun(run) && i < |run| && j in run[i].jobs && k in run[i].jobs
    requires run[i].jobs[j].row.state.Submitted? && run[i].jobs[k].row.state.Submitted?
    requires run[i].jobs[j].row.worker == run[i].jobs[k].row.worker
    ensures j == k
  {
    hide JobInv, WorkerInv;
    RunHolds(run, i);
  }

  // ----- execution on a worker -----

  /** Every (job, attempt) is executed at most once, and only attempts 1 to 3 are. */
  lemma ExecutedAtMostOnce(run: seq<Sys>, i: nat, j: JobId)
    requires IsRun(run) && i < |run| && j in run[i].jobs
    ensures var spawned := run[i].jobs[j].spawned;
            (forall a :: spawned[a] <= 1) && (forall a :: a in spawned ==> 1 <= a <= 3) && |spawned| <= 3
  {
    JobHolds(run, i, j);
    var spawned := run[i].jobs[j].spawned;
    assert spawned == multiset{}[1 := spawned[1]][2 := spawned[2]][3 := spawned[3]];
  }

  /** Once an attempt was admitted, the same POST again, however late and whatever happened since, changes nothing. */
  lemma RepeatIsHarmless(run: seq<Sys>, i: nat, k: nat, j: JobId, w: WorkerId, a: nat, gate: Gate)
    requires IsRun(run) && i <= k < |run| && j in run[i].jobs && w in run[i].jobs[j].roots && w in run[k].workers
    requires 1 <= a <= run[i].jobs[j].roots[w].state.attempt
    ensures j in run[k].jobs && w in run[k].jobs[j].roots
    ensures var js, active := run[k].jobs[j], run[k].workers[w].active; var answer := Handle(j, js, active, JobPost(w, a), gate);
            answer.status != 202 && answer.root == Some(js.roots[w]) && answer.active == active
            && (gate.Open? && a <= 3 ==> answer.status == 200)
  {
    hide JobInv, IsRun;
    RunLater(run, i, k);
    assert StateLater(run[i].jobs[j].roots[w].state, run[k].jobs[j].roots[w].state);
  }

  /** ACTIVE never holds two jobs; while its worker is up, a live runner's job is in it. */
  lemma ActiveIsOneJob(run: seq<Sys>, i: nat, w: WorkerId)
    requires IsRun(run) && i < |run| && w in run[i].workers
    ensures |run[i].workers[w].active| <= 1
    ensures run[i].workers[w].up ==>
              forall j :: j in run[i].jobs && w in run[i].jobs[j].roots && run[i].jobs[j].roots[w].live != {}
                ==> run[i].workers[w].active == {j}
  {
    RunHolds(run, i);
    var s := run[i];
    var active := s.workers[w].active;
    assert WorkerInv(s, w);
    if active != {} {
      var j :| j in active;
      assert active == {j};
    }
    forall j | j in s.jobs && w in s.jobs[j].roots && s.jobs[j].roots[w].live != {} && s.workers[w].up
      ensures active == {j}
    {
      LiveOccupies(j, s.jobs[j], CallOn(s.call, j), w, s.store, s.docs);
      assert Occupies(s, w, j);
      assert j in active;
    }
  }

  lemma LiveOccupies(j: JobId, js: JobSt, call: Call, w: WorkerId, store: map<Key, Object>, docs: set<Doc>)
    requires JobInv(j, js, call, store, docs) && w in js.roots && js.roots[w].live != {}
    ensures Occupying(js.roots[w])
  {
    var a :| a in js.roots[w].live;
  }

  // ----- media and receipts -----

  /**
   Whatever file its runner left for an output is still on the worker's disk as it was, or the output is in the
   store. So an output left with its declared size and digest is somewhere with exactly these.
   */
  lemma NoMediaLost(run: seq<Sys>, i: nat, j: JobId, w: WorkerId, n: nat)
    requires IsRun(run) && i < |run| && j in run[i].jobs && w in run[i].jobs[j].roots
    requires var s := run[i].jobs[j].roots[w].state; s.HasResult() && n < |s.result.outputs|
    ensures var root := run[i].jobs[j].roots[w]; var a := root.state.attempt; var o := root.state.result.outputs[n];
            a in root.exits && a in root.disk && root.exits[a].result == Some(root.state.result)
            && (o.key in root.exits[a].files ==>
                  (o.key in root.disk[a] && root.disk[a][o.key] == root.exits[a].files[o.key]) || InStore([o], run[i].store))
            && (OnDisk(root.exits[a].files, o) ==> OnDisk(root.disk[a], o) || InStore([o], run[i].store))
            && (root.state.Delivered() ==> InStore([o], run[i].store))
  {
    JobHolds(run, i, j);
  }

  /** Once released, the outputs and the receipt are in the store for ever, and the receipt is durable. */
  lemma ReleasedIsKept(run: seq<Sys>, i: nat, k: nat, j: JobId, w: WorkerId)
    requires IsRun(run) && i <= k < |run| && j in run[i].jobs && w in run[i].jobs[j].roots
    requires run[i].jobs[j].roots[w].state.Released?
    ensures var s := run[i].jobs[j].roots[w].state; var a := s.attempt;
            j in run[k].jobs && w in run[k].jobs[j].roots && run[k].jobs[j].roots[w].state == s
            && InStore(s.result.outputs, run[k].store)
            && a in run[k].jobs[j].row.receipts
            && run[k].jobs[j].row.receipts[a] == Summary(j, a, ReceiptsOf(s.result.outputs))
            && Doc(j, a, s.result, ReceiptsOf(s.result.outputs)) in run[k].docs
  {
    RunLater(run, i, k);
    JobHolds(run, k, j);
  }

  /** An archive receipt is never replaced by a different one. */
  lemma ReceiptIsFinal(run: seq<Sys>, i: nat, k: nat, j: JobId, a: nat)
    requires IsRun(run) && i <= k < |run| && j in run[i].jobs && a in run[i].jobs[j].row.receipts
    ensures j in run[k].jobs && a in run[k].jobs[j].row.receipts
            && run[k].jobs[j].row.receipts[a] == run[i].jobs[j].row.receipts[a]
  {
    RunLater(run, i, k);
  }

  lemma {:induction false} SameTotal(outputs: seq<Output>)
    ensures ReceiptBytes(ReceiptsOf(outputs)) == Bytes(outputs)
  {
    if outputs != [] {
      var n := |outputs| - 1;
      SameTotal(outputs[..n]);
      assert ReceiptsOf(outputs)[..n] == ReceiptsOf(outputs[..n]);
    }
  }

  /** A verified row was released, and its receipt accounts for every output and byte. */
  lemma VerifiedIsComplete(run: seq<Sys>, i: nat, j: JobId)
    requires IsRun(run) && i < |run| && j in run[i].jobs && run[i].jobs[j].row.state.StagedVerified?
    ensures var js := run[i].jobs[j]; var w := js.row.worker;
            w in js.roots && js.roots[w].state.Released? && js.row.result.Some?
            && var outputs := js.roots[w].state.result.outputs; var r := js.row.result.value;
            js.row.saved == Some(r) && r == Summary(j, js.row.attempt, ReceiptsOf(outputs))
            && r.outputCount == |outputs| > 0 && r.exportBytes == Bytes(outputs) <= ExportCap(js.row.sourceBytes)
            && InStore(outputs, run[i].store)
  {
    JobHolds(run, i, j);
    var js := run[i].jobs[j];
    SameTotal(js.roots[js.row.worker].state.result.outputs);
  }

  /** Terminal rows are never left. */
  lemma TerminalIsFinal(run: seq<Sys>, i: nat, k: nat, j: JobId)
    requires IsRun(run) && i <= k < |run| && j in run[i].jobs && run[i].jobs[j].row.Terminal()
    ensures j in run[k].jobs && run[k].jobs[j].row == run[i].jobs[j].row
  {
    RunLater(run, i, k);
  }
}
