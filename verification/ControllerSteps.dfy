/** Every controller step on a row keeps the job's invariant, and the ValueErrors it guards against cannot arise. */
module ControllerSteps {
  import opened Wrappers
  import opened StagingTypes
  import opened WorkerProtocol
  import opened ControllerProtocol
  import opened StagingSystem
  import opened StagingInvariant

  lemma DispatchKeeps(j: JobId, js: JobSt, w: WorkerId, go: bool, store: map<Key, Object>, docs: set<Doc>)
    requires JobInv(j, js, Idle, store, docs) && js.row.state.Queued?
    ensures var o := BeginSubmit(j, js.row, w, 1, go);
            JobInv(j, js.(row := o.row), CallOn(o.call, j), store, docs)
  {
  }

  lemma GetKeeps(j: JobId, js: JobSt, store: map<Key, Object>, docs: set<Doc>)
    requires JobInv(j, js, Idle, store, docs) && js.row.state.Submitted?
    ensures JobInv(j, js, Reading(j, StateOn(js, js.row.worker)), store, docs)
  {
  }

  lemma GiveUpKeeps(j: JobId, js: JobSt, call: Call, store: map<Key, Object>, docs: set<Doc>)
    requires JobInv(j, js, call, store, docs)
    ensures JobInv(j, js, Idle, store, docs)
  {
  }

  lemma ResubmitKeeps(j: JobId, js: JobSt, go: bool, store: map<Key, Object>, docs: set<Doc>)
    requires JobInv(j, js, Idle, store, docs) && js.row.state.Submitted?
    ensures var o := BeginSubmit(j, js.row, js.row.worker, js.row.attempt, go);
            JobInv(j, js.(row := o.row), CallOn(o.call, j), store, docs)
  {
    hide Execution, Threads, Bytes, Times, Rest, InStore, NamedAndProven, ReceiptsOf, ReadbackAccounted, UniqueKeys;
  }

  lemma RetryKeeps(j: JobId, js: JobSt, go: bool, store: map<Key, Object>, docs: set<Doc>)
    requires JobInv(j, js, Idle, store, docs) && js.row.state.Submitted? && js.row.attempt < MAX_ATTEMPTS
    requires js.row.worker in js.roots && js.roots[js.row.worker].state == Failed(js.row.attempt, WorkerRestarted)
    ensures var o := BeginSubmit(j, js.row, js.row.worker, js.row.attempt + 1, go);
            JobInv(j, js.(row := o.row), CallOn(o.call, j), store, docs)
  {
  }

  lemma HoldKeeps(j: JobId, js: JobSt, store: map<Key, Object>, docs: set<Doc>)
    requires JobInv(j, js, Idle, store, docs) && js.row.state.Submitted? && js.row.exports == 0
    requires js.row.worker in js.roots
    ensures JobInv(j, js.(row := js.row.(state := Held)), Idle, store, docs)
  {
  }

  lemma ExportIntentKeeps(j: JobId, js: JobSt, result: StageResult, store: map<Key, Object>, docs: set<Doc>)
    requires JobInv(j, js, Idle, store, docs) && js.row.state.Submitted? && js.row.worker in js.roots
    requires js.roots[js.row.worker].state.HasResult() && js.roots[js.row.worker].state.result == result
    requires result.stagingOnly && result.hourMatches
    ensures var o := BeginExport(j, js.row, result.outputs);
            JobInv(j, js.(row := o.row), CallOn(o.call, j), store, docs)
  {
    hide Bytes, Times, Rest, InStore, NamedAndProven, ReceiptsOf, ReadbackAccounted, UniqueKeys;
  }

  lemma ArchiveIntentKeeps(j: JobId, js: JobSt, remote: WState, store: map<Key, Object>, docs: set<Doc>)
    requires remote.Delivered() && JobInv(j, js, Reading(j, Some(remote)), store, docs)
    ensures var o := BeginArchive(j, js.row, remote);
            JobInv(j, js.(row := o.row), CallOn(o.call, j), store, docs)
  {
    hide Bytes, Times, Rest, InStore, NamedAndProven, ReceiptsOf, ReadbackAccounted, UniqueKeys;
  }

  /** What a reply tells about the row and the directory it was read from. */
  lemma ReadRow(j: JobId, js: JobSt, snap: Option<WState>, store: map<Key, Object>, docs: set<Doc>)
    requires JobInv(j, js, Reading(j, snap), store, docs)
    ensures js.row.state.Submitted?
    ensures snap.Some? ==>
              js.row.worker in js.roots && Lockstep(js.row, snap.value)
              && (snap.value.Restarted() && snap.value.attempt == js.row.attempt ==> js.roots[js.row.worker].state == snap.value)
              && (snap.value.Failed? && snap.value.attempt == js.row.attempt ==> js.row.exports == 0)
              && (snap.value.HasResult() ==>
                    js.roots[js.row.worker].state.HasResult() && js.roots[js.row.worker].state.result == snap.value.result)
  {
  }

  lemma ReconcileKeeps(j: JobId, js: JobSt, snap: Option<WState>, idle: bool, go: bool,
                       store: map<Key, Object>, docs: set<Doc>)
    requires JobInv(j, js, Reading(j, snap), store, docs)
    ensures var o := Reconcile(j, js.row, snap, idle, go);
            JobInv(j, js.(row := o.row), CallOn(o.call, j), store, docs)
  {
    GiveUpKeeps(j, js, Reading(j, snap), store, docs);
    ReadRow(j, js, snap, store, docs);
    hide JobInv, BeginSubmit, BeginArchive, BeginExport;
    var o := Reconcile(j, js.row, snap, idle, go);
    if o == Outcome(js.row, Idle, o.fault) {
      assert js.(row := o.row) == js;
    } else if snap.None? || snap.value.attempt != js.row.attempt {
      assert o == BeginSubmit(j, js.row, js.row.worker, js.row.attempt, go);
      ResubmitKeeps(j, js, go, store, docs);
    } else if snap.value.Failed? {
      if snap.value.Restarted() && js.row.attempt < MAX_ATTEMPTS {
        RetryKeeps(j, js, go, store, docs);
      } else {
        HoldKeeps(j, js, store, docs);
      }
    } else if snap.value.Delivered() {
      ArchiveIntentKeeps(j, js, snap.value, store, docs);
    } else {
      ExportIntentKeeps(j, js, snap.value.result, store, docs);
    }
  }

  lemma SendKeeps(j: JobId, js: JobSt, call: Call, store: map<Key, Object>, docs: set<Doc>)
    requires call.Sending? && JobInv(j, js, call, store, docs)
    ensures JobInv(j, js.(posts := js.posts + multiset{call.msg}),
                   Waiting(j, call.msg, call.priorAttempt, call.priorCount), store, docs)
  {
    hide Execution, Threads, Bytes, Times, Rest, InStore, NamedAndProven, ReceiptsOf, ReadbackAccounted, UniqueKeys, Produced,
         MediaKept, Lockstep, Exportable;
  }

  /** A refused first dispatch leaves no trace; a refused retry leaves the attempt before it. */
  lemma RefundKeeps(j: JobId, js: JobSt, call: Call, store: map<Key, Object>, docs: set<Doc>)
    requires call.Answered? && call.msg.JobPost? && Refusal(call.status) && JobInv(j, js, call, store, docs)
    ensures JobInv(j, js.(row := Refund(js.row, call.priorAttempt, call.priorCount)), Idle, store, docs)
  {
    var js' := js.(row := Refund(js.row, call.priorAttempt, call.priorCount));
    if call.priorAttempt == 0 {
      assert Untouched(js');
    } else if js.row.worker in js.roots {
      hide Threads, MediaKept;
      assert Present(j, js', js.roots[js.row.worker], Idle, store, docs);
    }
  }

  lemma ReleaseConfirmed(j: JobId, js: JobSt, call: Call, store: map<Key, Object>, docs: set<Doc>)
    requires call.Answered? && call.msg.ReleasePost? && call.status == 200 && JobInv(j, js, call, store, docs)
    ensures JobInv(j, js, Finishing(j), store, docs)
  {
  }

  lemma SettleKeeps(j: JobId, js: JobSt, call: Call, store: map<Key, Object>, docs: set<Doc>)
    requires call.Answered? && JobInv(j, js, call, store, docs)
    ensures var o := Settle(j, js.row, call.msg, call.priorAttempt, call.priorCount, call.status);
            JobInv(j, js.(row := o.row), CallOn(o.call, j), store, docs)
  {
    GiveUpKeeps(j, js, call, store, docs);
    if call.msg.JobPost? && Refusal(call.status) {
      RefundKeeps(j, js, call, store, docs);
    } else if call.msg.ReleasePost? && call.status == 200 {
      ReleaseConfirmed(j, js, call, store, docs);
    } else {
      hide JobInv;
      assert js.(row := js.row) == js;
    }
  }

  lemma ArchiveKeeps(j: JobId, js: JobSt, snap: Option<WState>, store: map<Key, Object>, docs: set<Doc>)
    requires snap.Some? && snap.value.Delivered() && JobInv(j, js, Archiving(j, snap), store, docs)
    ensures JobInv(j, js.(row := KeepReceipt(j, js.row, snap.value)), Archived(j, snap), store,
                   docs + {Doc(j, js.row.attempt, snap.value.result, snap.value.receipts)})
  {
  }

  lemma SaveKeeps(j: JobId, js: JobSt, snap: Option<WState>, store: map<Key, Object>, docs: set<Doc>)
    requires JobInv(j, js, Archived(j, snap), store, docs)
    ensures var o := SaveResult(j, js.row, snap.value);
            JobInv(j, js.(row := o.row), CallOn(o.call, j), store, docs)
  {
  }

  lemma FinishKeeps(j: JobId, js: JobSt, store: map<Key, Object>, docs: set<Doc>)
    requires JobInv(j, js, Finishing(j), store, docs)
    ensures js.row.saved.Some? && JobInv(j, js.(row := Finish(js.row)), Idle, store, docs)
  {
  }
}
