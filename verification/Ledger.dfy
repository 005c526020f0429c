/**
 The transfer term of the money ledger, as exact reals over bytes. Machine, storage and request
 charges are outside it; within a pass they are one fixed amount.
 */
module Ledger {
  import opened Wrappers
  import opened StagingTypes
  import opened WorkerProtocol
  import opened ControllerProtocol
  import opened StagingSystem
  import opened StagingInvariant
  import opened StagingSafety
  import opened StagingHistory
  import opened StagingTheorems

  /** Three exports of at most `ExportCap` bytes each. */
  function Reservation(sourceBytes: nat): nat {
    6 * sourceBytes + 384 * MIB
  }

  /** Bytes charged for one row. */
  function Reserved(row: Row): nat {
    if row.attempt == 0 then 0
    else if row.state.StagedVerified? then (if row.result.Some? then row.result.value.exportBytes * row.exports else 0)
    else if row.state.Held? || row.state.HeldStructure? then 0
    else Reservation(row.sourceBytes)
  }

  function Usd(bytes: nat): real {
    bytes as real / GIB as real * 0.01
  }

  function TransferUsd(rows: seq<Row>): real {
    if rows == [] then 0.0 else TransferUsd(rows[..|rows| - 1]) + Usd(Reserved(rows[|rows| - 1]))
  }

  /** The row loop of `budget`: transfer over every row that was ever dispatched. */
  method Budget(rows: seq<Row>) returns (transfer: real)
    ensures transfer == TransferUsd(rows)
  {
    transfer := 0.0;
    for i := 0 to |rows|
      invariant transfer == TransferUsd(rows[..i])
    {
      var row := rows[i];
      assert rows[..i + 1][..i] == rows[..i];
      if row.attempt > 0 {
        if row.state.StagedVerified? {
          if row.result.Some? {
            transfer := transfer + Usd(row.result.value.exportBytes * row.exports);
          }
        } else if !row.state.Held? && !row.state.HeldStructure? {
          transfer := transfer + Usd(6 * row.sourceBytes + 384 * MIB);
        }
      }
    }
    assert rows[..|rows|] == rows;
  }

  function RowsOf(s: Sys, ids: seq<JobId>): seq<Row>
    requires forall i :: 0 <= i < |ids| ==> ids[i] in s.jobs
  {
    seq(|ids|, i requires 0 <= i < |ids| => s.jobs[ids[i]].row)
  }

  function SentBytes(s: Sys, ids: seq<JobId>): nat
    requires forall i :: 0 <= i < |ids| ==> ids[i] in s.jobs
  {
    if ids == [] then 0 else SentBytes(s, ids[..|ids| - 1]) + s.jobs[ids[|ids| - 1]].sent
  }

  lemma TimesLinear(n: nat, size: nat)
    ensures Times(n, size) == n * size
  {
  }

  lemma ThreeExports(n: nat, size: nat, sourceBytes: nat)
    requires n <= 3 && size <= ExportCap(sourceBytes)
    ensures n * size <= Reservation(sourceBytes)
  {
    assert n == 0 || n == 1 || n == 2 || n == 3;
  }

  lemma MoreRuns(n: nat, m: nat, size: nat)
    requires n <= m
    ensures n * size <= m * size
  {
  }

  /** A held row exported nothing; any other row's charge covers what its exports PUT. */
  lemma RowCovered(j: JobId, js: JobSt, call: Call, store: map<Key, Object>, docs: set<Doc>)
    requires JobInv(j, js, call, store, docs)
    ensures js.sent <= Reserved(js.row)
  {
    hide InStore, NamedAndProven, ReceiptsOf, Execution, Threads, MediaKept, CallFits, UniqueKeys, OneOwner, SentCovered, Exportable;
    if js.row.worker in js.roots && js.runs > 0 {
      SentWithin(js, js.roots[js.row.worker], call);
      SameTotal(js.roots[js.row.worker].state.result.outputs);
    }
  }

  /** At most three exports, each within the cap, PUT no more than so many times the outputs. */
  lemma SentWithin(js: JobSt, root: Root, call: Call)
    requires ExportAccounting(js, root, call) && js.runs > 0 && js.row.exports <= 3
    ensures root.state.HasResult()
    ensures js.sent <= js.row.exports * Bytes(root.state.result.outputs)
    ensures js.sent <= Reservation(js.row.sourceBytes)
  {
    var outputs := root.state.result.outputs;
    TimesLinear(js.runs, Bytes(outputs));
    ThreeExports(js.runs, Bytes(outputs), js.row.sourceBytes);
    MoreRuns(js.runs, js.row.exports, Bytes(outputs));
  }

  lemma UsdMonotone(a: nat, b: nat)
    requires a <= b
    ensures Usd(a) <= Usd(b)
  {
  }

  lemma UsdSum(a: nat, b: nat)
    ensures Usd(a + b) == Usd(a) + Usd(b)
  {
  }

  /** In every reachable state the ledger's transfer term pays for every byte the workers have PUT. */
  lemma {:induction false} LedgerCoversExports(run: seq<Sys>, i: nat, ids: seq<JobId>)
    requires IsRun(run) && i < |run| && forall k :: 0 <= k < |ids| ==> ids[k] in run[i].jobs
    ensures Usd(SentBytes(run[i], ids)) <= TransferUsd(RowsOf(run[i], ids))
    decreases |ids|
  {
    hide JobInv, IsRun;
    if ids != [] {
      var n := |ids| - 1;
      var j := ids[n];
      LedgerCoversExports(run, i, ids[..n]);
      assert RowsOf(run[i], ids)[..n] == RowsOf(run[i], ids[..n]);
      JobHolds(run, i, j);
      RowCovered(j, run[i].jobs[j], CallOn(run[i].call, j), run[i].store, run[i].docs);
      UsdSum(SentBytes(run[i], ids[..n]), run[i].jobs[j].sent);
      UsdMonotone(run[i].jobs[j].sent, Reserved(run[i].jobs[j].row));
    }
  }

  // ----- what raises the ledger -----

  lemma ReconcileReserve(j: JobId, js: JobSt, snap: Option<WState>, idle: bool, go: bool, store: map<Key, Object>, docs: set<Doc>)
    requires JobInv(j, js, Reading(j, snap), store, docs)
    ensures Reserved(Reconcile(j, js.row, snap, idle, go).row) <= Reserved(js.row)
  {
    assert js.row.state.Submitted? && js.row.attempt >= 1;
    hide JobInv, ReadbackAccounted, NamedAndProven, Bytes;
  }

  /** Switching to the verified bytes times the exports never charges more than the reservation. */
  lemma FinishReserve(j: JobId, js: JobSt, store: map<Key, Object>, docs: set<Doc>)
    requires JobInv(j, js, Finishing(j), store, docs)
    ensures js.row.saved.Some? && Reserved(Finish(js.row)) <= Reserved(js.row)
  {
    var outputs := js.roots[js.row.worker].state.result.outputs;
    SameTotal(outputs);
    ThreeExports(js.row.exports, Bytes(outputs), js.row.sourceBytes);
  }

  lemma OtherReserve(j: JobId, js: JobSt, call: Call, store: map<Key, Object>, docs: set<Doc>)
    requires JobInv(j, js, call, store, docs) && !call.Idle?
    ensures js.row.state.Submitted? && js.row.attempt > 0 && Reserved(js.row) == Reservation(js.row.sourceBytes)
  {
  }

  lemma DispatchReserve(j: JobId, js: JobSt, w: WorkerId, go: bool, store: map<Key, Object>, docs: set<Doc>)
    requires JobInv(j, js, Idle, store, docs) && js.row.state.Queued?
    ensures Reserved(js.row) == 0
    ensures var row := BeginSubmit(j, js.row, w, 1, go).row;
            row == js.row || (row.state.Submitted? && Reserved(row) == Reservation(js.row.sourceBytes))
  {
  }

  /** Only a dispatch raises a row's charge, and by exactly its reservation. */
  lemma OnlyDispatchReserves(s: Sys, step: Step, j: JobId)
    requires Inv(s) && Allowed(s, step) && j in s.jobs
    ensures var t := Apply(s, step);
            j in t.jobs
            && (Reserved(t.jobs[j].row) <= Reserved(s.jobs[j].row)
                || (step.Dispatch? && step.job == j && Reserved(s.jobs[j].row) == 0
                    && Reserved(t.jobs[j].row) == Reservation(s.jobs[j].row.sourceBytes)))
  {
    hide JobInv, WorkerInv, Reconcile, Settle, Handle, Work, Enabled, BeginSubmit, OneSubmitted, Reserved, Reservation;
    var js, call := s.jobs[j], CallOn(s.call, j);
    assert JobInv(j, js, call, s.store, s.docs);
    match step {
      case Dispatch(i, w, go) => if i == j { DispatchReserve(j, js, w, go, s.store, s.docs); }
      case HoldForStructure(i) => if i == j { HoldReserve(j, js, s.store, s.docs); }
      case ReconcileRow(idle, go) => if s.call.job == j { ReconcileReserve(j, js, s.call.snap, idle, go, s.store, s.docs); }
      case SettleReply => if s.call.job == j { SettleReserve(j, js, s.call, s.store, s.docs); }
      case ArchiveConfirmed => if s.call.job == j { CommitStepReserve(s, step, j); }
      case SaveResultFile => if s.call.job == j { CommitStepReserve(s, step, j); }
      case FinishRow => if s.call.job == j { CommitStepReserve(s, step, j); }
      case _ => UnrelatedRow(s, step, j);
    }
  }

  lemma CommitStepReserve(s: Sys, step: Step, j: JobId)
    requires (step.ArchiveConfirmed? || step.SaveResultFile? || step.FinishRow?) && Allowed(s, step) && s.call.job == j && j in s.jobs
    requires JobInv(j, s.jobs[j], s.call, s.store, s.docs)
    ensures Reserved(Apply(s, step).jobs[j].row) <= Reserved(s.jobs[j].row)
  {
    hide JobInv, Reserved;
    if step.FinishRow? {
      FinishReserve(j, s.jobs[j], s.store, s.docs);
    } else {
      CommitReserve(j, s.jobs[j], s.call, s.store, s.docs);
    }
  }

  lemma HoldReserve(j: JobId, js: JobSt, store: map<Key, Object>, docs: set<Doc>)
    requires JobInv(j, js, Idle, store, docs) && js.row.state.Queued?
    ensures Reserved(js.row.(state := HeldStructure)) == 0
  {
  }

  lemma SettleReserve(j: JobId, js: JobSt, call: Call, store: map<Key, Object>, docs: set<Doc>)
    requires JobInv(j, js, call, store, docs) && call.Answered?
    ensures Reserved(Settle(j, js.row, call.msg, call.priorAttempt, call.priorCount, call.status).row) <= Reserved(js.row)
  {
    OtherReserve(j, js, call, store, docs);
    hide JobInv;
  }

  lemma CommitReserve(j: JobId, js: JobSt, call: Call, store: map<Key, Object>, docs: set<Doc>)
    requires JobInv(j, js, call, store, docs)
    ensures call.Archiving? ==> Reserved(KeepReceipt(j, js.row, call.snap.value)) == Reserved(js.row)
    ensures call.Archived? ==> Reserved(SaveResult(j, js.row, call.snap.value).row) == Reserved(js.row)
  {
  }
}
