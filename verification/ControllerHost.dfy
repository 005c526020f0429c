/**
 The staging controller over its tables: `submit`, `reconcile`, `dispatch` and one pass of `execute`.
 Each method runs a whole call; what the worker or the transport answers is an argument.
 */
module ControllerHost {
  import opened Wrappers
  import opened StagingTypes
  import opened ControllerCalls
  import opened ControllerProtocol
  import opened Ledger
  import opened WorkerProtocol

  /** A queue row. Its number of source files is in a column of its own that never changes. */
  datatype JobRow = JobRow(state: RowState, worker: WorkerId, attempt: nat, sourceBytes: nat, result: Option<Receipt>)

  datatype ArchiveId = ArchiveId(job: JobId, attempt: nat)

  /** Dollars of the reservations of newly dispatched jobs. */
  function ReservationsUsd(sources: seq<nat>): real {
    if sources == [] then 0.0
    else ReservationsUsd(sources[..|sources| - 1]) + Usd(Reservation(sources[|sources| - 1]))
  }

  ghost function ReceiptsFor(table: map<ArchiveId, Receipt>, j: JobId): map<nat, Receipt> {
    map a | a in (set id | id in table && id.job == j :: id.attempt) :: table[ArchiveId(j, a)]
  }

  lemma ReceiptsAfter(table: map<ArchiveId, Receipt>, id: ArchiveId, receipt: Receipt, j: JobId)
    ensures ReceiptsFor(table[id := receipt], j)
            == if id.job == j then ReceiptsFor(table, j)[id.attempt := receipt] else ReceiptsFor(table, j)
  {
    var after := ReceiptsFor(table[id := receipt], j);
    var expected := if id.job == j then ReceiptsFor(table, j)[id.attempt := receipt] else ReceiptsFor(table, j);
    forall a ensures a in after <==> a in expected {
      ReceiptAt(table, j, a);
      ReceiptAt(table[id := receipt], j, a);
    }
  }

  lemma ReceiptAt(table: map<ArchiveId, Receipt>, j: JobId, a: nat)
    ensures a in ReceiptsFor(table, j) <==> ArchiveId(j, a) in table
    ensures a in ReceiptsFor(table, j) ==> ReceiptsFor(table, j)[a] == table[ArchiveId(j, a)]
  {
    if ArchiveId(j, a) in table {
      assert ArchiveId(j, a).attempt in (set id | id in table && id.job == j :: id.attempt);
    }
  }

  ghost function Join(j: JobId, job: JobRow, submissions: nat, exports: nat, archives: nat,
                      receipts: map<ArchiveId, Receipt>, results: map<JobId, Receipt>): Row {
    Row(job.state, job.worker, job.attempt, job.sourceBytes, submissions, exports, archives,
        ReceiptsFor(receipts, j), if j in results then Some(results[j]) else None, job.result)
  }

  /** Tables that differ in no other row differ by one row's update. */
  lemma OneRow(before: map<JobId, Row>, after: map<JobId, Row>, j: JobId, row: Row)
    requires j in before && before.Keys == after.Keys && after[j] == row
    requires forall i :: i in before && i != j ==> after[i] == before[i]
    ensures after == before[j := row]
  {
  }

  class StagingQueue {
    const sourceFiles: map<JobId, nat>
    var jobs: map<JobId, JobRow>
    var submissionAttempts: map<JobId, nat>
    var exportAttempts: map<JobId, nat>
    var archiveAttempts: map<JobId, nat>
    var archiveReceipts: map<ArchiveId, Receipt>
    var results: map<JobId, Receipt>
    var deferred: set<JobId>

    constructor (queue: map<JobId, JobRow>, files: map<JobId, nat>)
      ensures jobs == queue && sourceFiles == files && submissionAttempts == exportAttempts == archiveAttempts == map[]
      ensures archiveReceipts == map[] && results == map[] && deferred == {}
    {
      sourceFiles, jobs, submissionAttempts, exportAttempts, archiveAttempts := files, queue, map[], map[], map[];
      archiveReceipts, results, deferred := map[], map[], {};
    }

    /** Every row joined with its counters, receipts and results file. */
    ghost function Table(): map<JobId, Row>
      reads this
    {
      map j | j in jobs ::
        Join(j, jobs[j], CountOf(submissionAttempts, j), CountOf(exportAttempts, j), CountOf(archiveAttempts, j),
             archiveReceipts, results)
    }

    method ReadJob(j: JobId) returns (row: JobRow)
      requires j in jobs
      ensures j in Table() && row == jobs[j]
      ensures row.state == Table()[j].state && row.worker == Table()[j].worker && row.attempt == Table()[j].attempt
      ensures row.sourceBytes == Table()[j].sourceBytes && row.result == Table()[j].result
    {
      row := jobs[j];
    }

    method ReadCounts(j: JobId) returns (submissions: nat, exports: nat, archives: nat)
      requires j in jobs
      ensures j in Table() && submissions == Table()[j].submissions && exports == Table()[j].exports && archives == Table()[j].archives
    {
      submissions, exports, archives := CountOf(submissionAttempts, j), CountOf(exportAttempts, j), CountOf(archiveAttempts, j);
    }

    method ReadReceipt(j: JobId, attempt: nat) returns (receipt: Option<Receipt>)
      requires j in jobs
      ensures j in Table() && (receipt.Some? <==> attempt in Table()[j].receipts)
      ensures receipt.Some? ==> receipt.value == Table()[j].receipts[attempt]
    {
      ReceiptAt(archiveReceipts, j, attempt);
      var id := ArchiveId(j, attempt);
      receipt := if id in archiveReceipts then Some(archiveReceipts[id]) else None;
    }

    method UpdateJob(j: JobId, state: RowState, worker: WorkerId, attempt: nat, result: Option<Receipt>)
      requires j in jobs
      modifies this`jobs
      ensures j in jobs && jobs == old(jobs)[j := jobs[j]] && j in Table() && j in old(Table())
      ensures Table() == old(Table())[j := old(Table()[j]).(state := state, worker := worker, attempt := attempt, result := result)]
    {
      hide ReceiptsFor;
      jobs := jobs[j := jobs[j].(state := state, worker := worker, attempt := attempt, result := result)];
      OneRow(old(Table()), Table(), j, old(Table()[j]).(state := state, worker := worker, attempt := attempt, result := result));
    }

    method SetState(j: JobId, state: RowState)
      requires j in jobs
      modifies this`jobs
      ensures j in jobs && jobs == old(jobs)[j := jobs[j]] && j in old(Table())
      ensures Table() == old(Table())[j := old(Table()[j]).(state := state)]
    {
      UpdateJob(j, state, jobs[j].worker, jobs[j].attempt, jobs[j].result);
    }

    method PutSubmissions(j: JobId, count: nat)
      requires j in jobs
      modifies this`submissionAttempts
      ensures j in old(Table()) && Table() == old(Table())[j := old(Table()[j]).(submissions := count)]
    {
      hide ReceiptsFor;
      submissionAttempts := submissionAttempts[j := count];
      OneRow(old(Table()), Table(), j, old(Table()[j]).(submissions := count));
    }

    method PutExports(j: JobId, count: nat)
      requires j in jobs
      modifies this`exportAttempts
      ensures j in old(Table()) && Table() == old(Table())[j := old(Table()[j]).(exports := count)]
    {
      hide ReceiptsFor;
      exportAttempts := exportAttempts[j := count];
      OneRow(old(Table()), Table(), j, old(Table()[j]).(exports := count));
    }

    method PutArchives(j: JobId, count: nat)
      requires j in jobs
      modifies this`archiveAttempts
      ensures j in old(Table()) && Table() == old(Table())[j := old(Table()[j]).(archives := count)]
    {
      hide ReceiptsFor;
      archiveAttempts := archiveAttempts[j := count];
      OneRow(old(Table()), Table(), j, old(Table()[j]).(archives := count));
    }

    method PutReceipt(j: JobId, attempt: nat, receipt: Receipt)
      requires j in jobs
      modifies this`archiveReceipts
      ensures j in old(Table())
      ensures Table() == old(Table())[j := old(Table()[j]).(receipts := old(Table()[j]).receipts[attempt := receipt])]
    {
      forall i { ReceiptsAfter(archiveReceipts, ArchiveId(j, attempt), receipt, i); }
      hide ReceiptsFor;
      archiveReceipts := archiveReceipts[ArchiveId(j, attempt) := receipt];
      OneRow(old(Table()), Table(), j, old(Table()[j]).(receipts := old(Table()[j]).receipts[attempt := receipt]));
    }

    method WriteResult(j: JobId, receipt: Receipt)
      requires j in jobs
      modifies this`results
      ensures j in old(Table()) && Table() == old(Table())[j := old(Table()[j]).(saved := Some(receipt))]
    {
      hide ReceiptsFor;
      results := results[j := receipt];
      OneRow(old(Table()), Table(), j, old(Table()[j]).(saved := Some(receipt)));
    }

    method Submit(j: JobId, w: WorkerId, media: nat, probe: Probe, reply: Reply) returns (outcome: Submission)
      requires j in jobs
      modifies this
      ensures j in jobs && jobs == old(jobs)[j := jobs[j]] && j in old(Table())
      ensures Table() == old(Table())[j := SubmitRow(j, old(Table()[j]), w, media, probe, reply)]
      ensures outcome == SubmitOutcome(old(Table()[j]), probe, reply)
      ensures deferred == if old(Table()[j]).submissions < 3 && (probe.HeadsMissing? || (probe.Go? && Refused(reply)))
                          then old(deferred) + {j} else old(deferred)
    {
      hide Table;
      var row := ReadJob(j);
      var count, _, _ := ReadCounts(j);
      if count >= MAX_SUBMISSIONS {
        SetState(j, HeldSubmission);
        return Deferred;
      }
      match probe {
        case WorkerBusy => return Raised;
        case HeadsMissing =>
          Defer(j);
          return Deferred;
        case Go =>
      }
      PutSubmissions(j, count + 1);
      UpdateJob(j, Submitted, w, media, row.result);
      if reply.NoReply? {
        return Raised;
      }
      if reply.code == 409 || reply.code == 503 || reply.code == 507 {
        PutSubmissions(j, count);
        UpdateJob(j, if row.attempt == 0 then Queued else Submitted, w, row.attempt, row.result);
        Defer(j);
        return Deferred;
      }
      return if reply.code == 200 || reply.code == 202 then Sent else Raised;
    }

    method Defer(j: JobId)
      modifies this`deferred
      ensures deferred == old(deferred) + {j} && Table() == old(Table())
    {
      deferred := deferred + {j};
    }

    /** The export branch: checks, bounded intent, then the POST whose answer changes nothing here. */
    method Export(j: JobId, remote: WState)
      requires j in jobs && remote.HasResult()
      modifies this
      ensures jobs.Keys == old(jobs.Keys) && j in old(Table())
      ensures Table() == old(Table())[j := BeginExport(j, old(Table()[j]), remote.result.outputs).row]
      ensures deferred == old(deferred)
    {
      hide Table;
      var outputs := remote.result.outputs;
      var row := ReadJob(j);
      if outputs == [] {
        SetState(j, Held);
        return;
      }
      var total := 0;
      for i := 0 to |outputs|
        invariant total == Bytes(outputs[..i])
      {
        assert outputs[..i + 1][..i] == outputs[..i];
        total := total + outputs[i].size;
      }
      assert outputs[..|outputs|] == outputs;
      if total > 2 * row.sourceBytes + 128 * MIB {
        return;
      }
      for i := 0 to |outputs|
        invariant NamedAndProven(outputs[..i])
      {
        if outputs[i].key != ObjectKey(outputs[i].sha) || !outputs[i].proven {
          return;
        }
      }
      var _, count, _ := ReadCounts(j);
      if count >= MAX_EXPORTS {
        SetState(j, HeldExport);
      } else {
        PutExports(j, count + 1);
      }
    }

    /** Archive the receipt unless a matching one is kept. */
    method Archive(j: JobId, remote: WState, archived: bool) returns (receipt: Option<Receipt>)
      requires j in jobs && remote.Delivered()
      modifies this
      ensures jobs.Keys == old(jobs.Keys) && j in old(Table())
      ensures var o := BeginArchive(j, old(Table()[j]), remote);
              Table() == old(Table())[j := if o.call.Archiving? && archived then KeepReceipt(j, o.row, remote) else o.row]
              && (receipt.Some? <==> (o.call.Archiving? && archived) || o.call.Archived?)
      ensures receipt.Some? ==> Table()[j].attempt in Table()[j].receipts && receipt.value == Table()[j].receipts[Table()[j].attempt]
      ensures deferred == old(deferred)
    {
      hide Table;
      if !ReadbackAccounted(remote.result.outputs, remote.receipts) {
        var _ := ReadJob(j);
        return None;
      }
      var row := ReadJob(j);
      var prior := ReadReceipt(j, row.attempt);
      if prior.Some? && prior.value.job == j && prior.value.attempt == row.attempt && prior.value.exports == remote.receipts {
        return prior;
      }
      var _, _, count := ReadCounts(j);
      if count >= MAX_ARCHIVES {
        SetState(j, HeldReceipt);
        return None;
      }
      PutArchives(j, count + 1);
      if !archived {
        return None;
      }
      PutReceipt(j, row.attempt, Summary(j, row.attempt, remote.receipts));
      return Some(Summary(j, row.attempt, remote.receipts));
    }

    /** The delivery branch: archive, write the results file, release, finish. */
    method Deliver(j: JobId, remote: WState, archived: bool, release: Reply)
      requires j in jobs && remote.Delivered()
      modifies this
      ensures jobs.Keys == old(jobs.Keys) && j in old(Table())
      ensures Table() == old(Table())[j := DeliverRow(j, old(Table()[j]), remote, archived, release)]
      ensures deferred == old(deferred)
    {
      hide Table, ReadbackAccounted;
      var receipt := Archive(j, remote, archived);
      if receipt.None? {
        return;
      }
      WriteResult(j, receipt.value);
      if !remote.Released? && release != Status(200) {
        return;
      }
      var row := ReadJob(j);
      UpdateJob(j, StagedVerified, row.worker, row.attempt, receipt);
    }

    method Reconcile(j: JobId, replies: Replies)
      requires j in jobs
      modifies this
      ensures jobs.Keys == old(jobs.Keys) && j in old(Table())
      ensures Table() == if j in old(deferred) then old(Table())
                         else old(Table())[j := ReconcileRow(j, old(Table()[j]), replies)]
      ensures deferred == if ReconcilePutsOff(old(Table()[j]), replies) then old(deferred) + {j} else old(deferred)
    {
      hide Table, DeliverRow, SubmitRow, BeginExport, BeginArchive, BeginSubmit;
      var row := ReadJob(j);
      if j in deferred || replies.get.Unreachable? {
        return;
      }
      if replies.get.Missing? {
        if replies.idle {
          var _ := Submit(j, row.worker, row.attempt, replies.probe, replies.job);
        }
        return;
      }
      var remote := replies.get.state;
      if remote.attempt != row.attempt {
        if remote.attempt + 1 == row.attempt && remote.Restarted() {
          var _ := Submit(j, row.worker, row.attempt, replies.probe, replies.job);
        }
      } else if remote.Accepted? || remote.Running? || remote.Exporting? {
      } else if remote.Failed? {
        if remote.Restarted() && row.attempt < MAX_ATTEMPTS {
          var _ := Submit(j, row.worker, row.attempt + 1, replies.probe, replies.job);
        } else {
          SetState(j, Held);
        }
      } else if remote.result.stagingOnly && remote.result.hourMatches {
        if remote.Delivered() {
          Deliver(j, remote, replies.archived, replies.release);
        } else {
          Export(j, remote);
        }
      }
    }

    /** Sources and files within what a worker accepts, and no deferral pending. */
    predicate Eligible(j: JobId): (b: bool)
      requires j in jobs
      reads this
      ensures b == Offered(Table(), sourceFiles, deferred, j)
    {
      jobs[j].state.Queued? && jobs[j].attempt == 0 && 0 < jobs[j].sourceBytes <= 8 * GIB && CountOf(sourceFiles, j) <= 240
      && j !in deferred
    }

    /**
     Scan the eligible rows in queue order until one is submitted to `w`, the reservation does not fit
     under `bound`, or the transport raises. `admitted` is the row left submitted, if any.
     */
    method Dispatch(w: WorkerId, bound: real, order: seq<JobId>, screen: JobId -> Screening, probe: JobId -> Probe,
                    reply: JobId -> Reply) returns (admitted: Option<JobId>)
      requires forall i :: 0 <= i < |order| ==> order[i] in jobs
      requires forall i, k :: 0 <= i < k < |order| ==> order[i] != order[k]
      modifies this
      ensures jobs.Keys == old(jobs.Keys)
      ensures Table() == Scan(old(Table()), Offers(old(Table()), sourceFiles, old(deferred), order), w, bound, screen, probe, reply)
      ensures Dispatched(old(Table()), Table(), sourceFiles, old(deferred), deferred, order, w, bound, screen, probe, reply, admitted)
      ensures DispatchedTo(old(Table()), Table(), w, bound, admitted)
      ensures admitted.Some? ==> admitted.value in order && old(Eligible(admitted.value)) && screen(admitted.value).Passing?
    {
      hide Table, Unadmitted, Usd, Reservation, DispatchedTo, AdmittedTo, Unscanned, Eligible, Scan, ScanRow, Offers, Offered, Fresh,
           RowsDecided, Decided, Taken, PutOff, PassedOver;
      admitted := None;
      ghost var start, was := Table(), deferred;
      var rows := Select(order);
      ScanBegins(start, w, bound);
      NoneDecided(start, was, rows, w, bound, screen, probe, reply);
      assert rows[0..] == rows;
      for i := 0 to |rows|
        invariant jobs.Keys == old(jobs.Keys)
        invariant DispatchedTo(start, Table(), w, bound, None)
        invariant Unscanned(start, Table(), rows, i) && SelectedIn(Table(), rows)
        invariant Scan(Table(), rows[i..], w, bound, screen, probe, reply) == Scan(start, rows, w, bound, screen, probe, reply)
        invariant RowsDecided(start, Table(), was, deferred, rows, i, w, bound, screen, probe, reply, None)
        invariant i > 0 ==> PassedOver(start[rows[i - 1]], bound, screen(rows[i - 1]), probe(rows[i - 1]), reply(rows[i - 1]))
        invariant admitted.None?
      {
        var stop;
        ghost var before, mid := Table(), deferred;
        NextUnscanned(start, before, rows, i);
        ScanNext(before, rows, i, w, bound, screen, probe, reply);
        stop, admitted := TryRow(rows[i], w, bound, screen(rows[i]), probe(rows[i]), reply(rows[i]));
        ScanMore(start, before, Table(), w, bound, rows[i], admitted);
        OneDecided(start, before, Table(), was, mid, deferred, rows, i, w, bound, screen, probe, reply, admitted);
        if stop {
          ScanDecided(start, Table(), sourceFiles, was, deferred, order, i + 1, w, bound, screen, probe, reply, admitted);
          return;
        }
        StillUnscanned(start, before, Table(), rows, i);
      }
      ScanEnds(Table(), rows, w, bound, screen, probe, reply);
      ScanDecided(start, Table(), sourceFiles, was, deferred, order, |rows|, w, bound, screen, probe, reply, None);
    }

    /** One row of the scan. The scan stops on an admission, a full ledger or a transport failure. */
    method TryRow(j: JobId, w: WorkerId, bound: real, screen: Screening, probe: Probe, reply: Reply)
      returns (stop: bool, admitted: Option<JobId>)
      requires j in jobs && j in Table() && Fresh(Table()[j])
      modifies this
      ensures j in jobs && jobs == old(jobs)[j := jobs[j]] && j in old(Table()) && j in Table()
      ensures Table() == old(Table())[j := ScanRow(j, old(Table()[j]), w, bound, screen, probe, reply).row]
      ensures stop == ScanRow(j, old(Table()[j]), w, bound, screen, probe, reply).stop
      ensures Decided(old(Table()[j]), Table()[j], w, bound, screen, probe, reply)
      ensures stop <==> !PassedOver(old(Table()[j]), bound, screen, probe, reply)
      ensures deferred == old(deferred) + if PutOff(old(Table()[j]), bound, screen, probe, reply) then {j} else {}
      ensures admitted == if Taken(old(Table()[j]), bound, screen, probe, reply) then Some(j) else None
      ensures admitted.None? ==> Unadmitted(old(Table()[j]), Table()[j])
      ensures admitted.Some? ==>
                stop && admitted.value == j && screen.Passing? && AdmittedTo(old(Table()[j]), Table()[j], w, bound)
    {
      RowDecided(j, Table()[j], w, bound, screen, probe, reply);
      hide Table, SubmitRow, Decided;
      var row := ReadJob(j);
      match screen {
        case Failing =>
          SetState(j, HeldStructure);
          return false, None;
        case Incomplete => return false, None;
        case Passing =>
      }
      if bound + Usd(6 * row.sourceBytes + 384 * MIB) + 5.0 >= 95.0 {
        return true, None;
      }
      SubmittedOrNot(j, Table()[j], w, probe, reply);
      var outcome := Submit(j, w, 1, probe, reply);
      var after := ReadJob(j);
      return !outcome.Deferred?, if after.state.Submitted? then Some(j) else None;
    }

    /** The dispatch query over the queue order. */
    method Select(order: seq<JobId>) returns (rows: seq<JobId>)
      requires forall i :: 0 <= i < |order| ==> order[i] in jobs
      requires forall i, k :: 0 <= i < k < |order| ==> order[i] != order[k]
      ensures rows == Offers(Table(), sourceFiles, deferred, order)
      ensures forall i :: 0 <= i < |rows| ==> rows[i] in order && rows[i] in jobs && Eligible(rows[i]) && rows[i] !in deferred
      ensures forall i, k :: 0 <= i < k < |rows| ==> rows[i] != rows[k]
      ensures forall j :: j in order && Eligible(j) ==> j in rows
      ensures SelectedIn(Table(), rows) && Unscanned(Table(), Table(), rows, 0)
    {
      hide Eligible;
      rows := [];
      for i := 0 to |order|
        invariant rows == Offers(Table(), sourceFiles, deferred, order[..i])
      {
        assert order[..i + 1][..i] == order[..i];
        if Eligible(order[i]) {
          rows := rows + [order[i]];
        }
      }
      assert order[..|order|] == order;
      OffersEach(Table(), sourceFiles, deferred, order);
      OffersFresh(Table(), sourceFiles, deferred, rows);
    }

    /**
     One pass of `execute`: every worker in turn, all with the ledger bound from the start of the pass.
     `sources` are the source sizes of the jobs this pass admitted.
     */
    method Pass(workers: seq<WorkerId>, bound: real, order: seq<JobId>, replies: WorkerId -> Replies,
                screen: JobId -> Screening, probe: WorkerId -> JobId -> Probe, reply: WorkerId -> JobId -> Reply, ghost all: seq<JobId>)
      returns (admitted: seq<JobId>, sources: seq<nat>, ghost moments: seq<Moment>)
      requires EachOnce(all, Table())
      requires |workers| <= 8 && forall i, k :: 0 <= i < k < |workers| ==> workers[i] != workers[k]
      requires forall i :: 0 <= i < |order| ==> order[i] in jobs
      requires forall i, k :: 0 <= i < k < |order| ==> order[i] != order[k]
      requires forall j :: j in jobs && jobs[j].state.Submitted? ==> jobs[j].attempt >= 1
      modifies this
      ensures jobs.Keys == old(jobs.Keys) && |admitted| <= |workers|
      ensures Turns(moments, |workers|, sourceFiles, order, workers, bound, replies, screen, probe, reply)
      ensures moments[0] == old(Moment(Table(), deferred)) && moments[|workers|] == Moment(Table(), deferred)
      ensures Admissions(old(Table()), Table(), admitted, sources, workers)
      ensures sources != [] ==> bound + ReservationsUsd(sources) < 93.38625
      ensures EachOnce(all, Table())
      ensures AllFit(old(Table()), workers, replies) ==>
                TransferUsd(RowsIn(Table(), all)) <= TransferUsd(RowsIn(old(Table()), all)) + ReservationsUsd(sources)
    {
      admitted, sources := [], [];
      ghost var start := Table();
      assert Table().Keys == jobs.Keys && Attempted(start);
      moments := [Moment(start, deferred)];
      hide Table, Turn, Turns, SoFar, Admissions, Visited, Charged, Attempted, EachOnce, AllFit, TransferUsd, RowsIn, ReservationsUsd;
      PassBegins(start, workers, replies, all, bound);
      NoTurns(moments[0], sourceFiles, order, workers, bound, replies, screen, probe, reply);
      for i := 0 to |workers|
        invariant jobs.Keys == old(jobs.Keys) && Table().Keys == jobs.Keys
        invariant SoFar(start, Table(), admitted, sources, workers, i, bound, replies, all)
        invariant Turns(moments, i, sourceFiles, order, workers, bound, replies, screen, probe, reply) && |moments| == i + 1
        invariant moments[0] == old(Moment(Table(), deferred)) && moments[i] == Moment(Table(), deferred)
      {
        ghost var before := Table();
        var w := workers[i];
        SoFarAttempted(start, before, admitted, sources, workers, i, bound, replies, all);
        var job, source := Visit(w, bound, order, replies(w), screen, probe(w), reply(w));
        OneTurn(moments, i, Moment(Table(), deferred), sourceFiles, order, workers, bound, replies, screen, probe, reply);
        moments := moments + [Moment(Table(), deferred)];
        TurnAdds(start, before, Table(), admitted, sources, workers, i, bound, replies, all, job, source);
        if job.Some? {
          admitted, sources := admitted + [job.value], sources + [source];
        }
      }
      PassEnds(start, Table(), admitted, sources, workers, bound, replies, all);
    }

    /** One worker's turn: reconcile its submitted row, or dispatch while the ledger is below 90. */
    method Visit(w: WorkerId, bound: real, order: seq<JobId>, replies: Replies, screen: JobId -> Screening,
                 probe: JobId -> Probe, reply: JobId -> Reply) returns (admitted: Option<JobId>, source: nat)
      requires forall i :: 0 <= i < |order| ==> order[i] in jobs
      requires forall i, k :: 0 <= i < k < |order| ==> order[i] != order[k]
      requires Attempted(Table())
      modifies this
      ensures jobs.Keys == old(jobs.Keys) && Table().Keys == jobs.Keys && Visited(old(Table()), Table(), w, admitted, source)
      ensures Charged(old(Table()), Table(), w, admitted, source, replies)
      ensures Turn(old(Moment(Table(), deferred)), Moment(Table(), deferred), sourceFiles, order, w, bound, replies, screen, probe, reply)
      ensures admitted.Some? ==> source <= 8 * GIB && bound + Usd(Reservation(source)) < 90.0
    {
      assert Table().Keys == jobs.Keys;
      hide Table, Mine, Turn, Visited, Charged, ReconcileRow, Eligible, Usd, Reservation;
      admitted, source := None, 0;
      Unvisited(Table(), w);
      Uncharged(Table(), w, replies);
      NoTurn(Moment(Table(), deferred), sourceFiles, order, w, bound, replies, screen, probe, reply);
      var active := Active(w);
      if |active| > 1 {
        return;
      }
      if active != {} {
        var j :| j in active;
        OnlyOne(active, j);
        VisitSubmitted(j, w, bound, order, replies, screen, probe, reply);
      } else if bound < 90.0 {
        admitted, source := VisitFree(w, bound, order, replies, screen, probe, reply);
      }
    }

    method VisitSubmitted(j: JobId, w: WorkerId, bound: real, order: seq<JobId>, replies: Replies, screen: JobId -> Screening,
                          probe: JobId -> Probe, reply: JobId -> Reply)
      requires Attempted(Table()) && Mine(Table(), w) == {j} && j in jobs
      requires j in Table() && Table()[j].state.Submitted? && Table()[j].worker == w
      modifies this
      ensures jobs.Keys == old(jobs.Keys) && Table().Keys == jobs.Keys && Visited(old(Table()), Table(), w, None, 0)
      ensures Charged(old(Table()), Table(), w, None, 0, replies)
      ensures Turn(old(Moment(Table(), deferred)), Moment(Table(), deferred), sourceFiles, order, w, bound, replies, screen, probe, reply)
    {
      assert Table().Keys == jobs.Keys;
      hide Table, Mine, Turn, ReconcilePutsOff, Visited, Charged, ReconcileRow;
      ghost var start := Moment(Table(), deferred);
      Reconcile(j, replies);
      ReconcileDone(start.table, Table(), j in start.deferred, w, j, replies);
      ReconcileTurn(start, Moment(Table(), deferred), sourceFiles, order, w, bound, replies, screen, probe, reply, j);
    }

    method VisitFree(w: WorkerId, bound: real, order: seq<JobId>, replies: Replies, screen: JobId -> Screening,
                     probe: JobId -> Probe, reply: JobId -> Reply) returns (admitted: Option<JobId>, source: nat)
      requires forall i :: 0 <= i < |order| ==> order[i] in jobs
      requires forall i, k :: 0 <= i < k < |order| ==> order[i] != order[k]
      requires Attempted(Table()) && Mine(Table(), w) == {} && bound < 90.0
      modifies this
      ensures jobs.Keys == old(jobs.Keys) && Table().Keys == jobs.Keys && Visited(old(Table()), Table(), w, admitted, source)
      ensures Charged(old(Table()), Table(), w, admitted, source, replies)
      ensures Turn(old(Moment(Table(), deferred)), Moment(Table(), deferred), sourceFiles, order, w, bound, replies, screen, probe, reply)
      ensures admitted.Some? ==> source <= 8 * GIB && bound + Usd(Reservation(source)) < 90.0
    {
      assert Table().Keys == jobs.Keys;
      hide Table, Mine, Turn, Visited, Charged, Eligible, Offers, Scan, Dispatched, Usd, Reservation, DispatchedTo;
      ghost var start := Moment(Table(), deferred);
      admitted := Dispatch(w, bound, order, screen, probe, reply);
      source := DispatchSource(admitted, w, bound, start.table);
      DispatchCharges(start.table, Table(), w, bound, admitted, source, replies);
      DispatchTurn(start, Moment(Table(), deferred), sourceFiles, order, w, bound, replies, screen, probe, reply, admitted);
    }

    /** The query for a worker's submitted rows. */
    method Active(w: WorkerId) returns (active: set<JobId>)
      ensures active == Mine(Table(), w)
      ensures forall j :: j in active ==> j in jobs && j in Table() && Table()[j].state.Submitted? && Table()[j].worker == w
    {
      active := set j | j in jobs && jobs[j].worker == w && jobs[j].state.Submitted?;
    }

    method DispatchSource(admitted: Option<JobId>, w: WorkerId, bound: real, ghost before: map<JobId, Row>) returns (source: nat)
      requires DispatchedTo(before, Table(), w, bound, admitted)
      ensures Visited(before, Table(), w, admitted, source)
      ensures admitted.Some? ==> source <= 8 * GIB && bound + Usd(Reservation(source)) < 90.0
      ensures admitted.Some? ==> admitted.value in Table() && source == Table()[admitted.value].sourceBytes
    {
      source := if admitted.Some? then jobs[admitted.value].sourceBytes else 0;
    }
  }

  lemma ReconcileDone(before: map<JobId, Row>, now: map<JobId, Row>, deferred: bool, w: WorkerId, j: JobId, replies: Replies)
    requires Attempted(before) && j in before && before[j].state.Submitted? && before[j].worker == w
    requires now == if deferred then before else before[j := ReconcileRow(j, before[j], replies)]
    ensures now.Keys == before.Keys && Visited(before, now, w, None, 0) && Charged(before, now, w, None, 0, replies)
  {
    hide ReconcileRow, Visited, Charged, Attempted;
    Unvisited(before, w);
    Uncharged(before, w, replies);
    ReconcileVisits(before, w, j, replies);
    ReconcileCharges(before, w, j, replies);
  }

  lemma OnlyOne(s: set<JobId>, j: JobId)
    requires j in s && |s| <= 1
    ensures s == {j} && |s| == 1
  {
    assert |s - {j}| == 0;
  }

  lemma NoTurns(start: Moment, files: map<JobId, nat>, order: seq<JobId>, workers: seq<WorkerId>, bound: real,
                replies: WorkerId -> Replies, screen: JobId -> Screening, probe: WorkerId -> JobId -> Probe,
                reply: WorkerId -> JobId -> Reply)
    ensures Turns([start], 0, files, order, workers, bound, replies, screen, probe, reply)
  {
  }

  /** What a dispatch to `w` did to the table. */
  ghost predicate DispatchedTo(before: map<JobId, Row>, now: map<JobId, Row>, w: WorkerId, bound: real, admitted: Option<JobId>) {
    now.Keys == before.Keys && (forall i :: i in now && admitted != Some(i) ==> Unadmitted(before[i], now[i]))
    && (admitted.Some? ==> admitted.value in now && AdmittedTo(before[admitted.value], now[admitted.value], w, bound))
  }

  /** A first submission to `w` whose reservation fits under 90 dollars. */
  ghost predicate AdmittedTo(r: Row, q: Row, w: WorkerId, bound: real) {
    r.state.Queued? && r.attempt == 0 && q.state.Submitted? && q.worker == w && q.attempt == 1
    && q.sourceBytes == r.sourceBytes <= 8 * GIB && bound + Usd(Reservation(q.sourceBytes)) < 90.0
  }

  lemma OffersFresh(table: map<JobId, Row>, files: map<JobId, nat>, deferred: set<JobId>, rows: seq<JobId>)
    requires forall i :: 0 <= i < |rows| ==> Offered(table, files, deferred, rows[i])
    requires forall i, k :: 0 <= i < k < |rows| ==> rows[i] != rows[k]
    ensures SelectedIn(table, rows) && Unscanned(table, table, rows, 0)
  {
  }

  predicate SelectedIn(table: map<JobId, Row>, rows: seq<JobId>) {
    forall i :: 0 <= i < |rows| ==> rows[i] in table
  }

  /** A row that no dispatch has submitted and a worker would accept. */
  predicate Fresh(row: Row) {
    row.state.Queued? && row.attempt == 0 && row.sourceBytes <= 8 * GIB
  }

  /** The selected rows from `i` on are distinct, fresh and as they were. */
  ghost predicate Unscanned(start: map<JobId, Row>, now: map<JobId, Row>, rows: seq<JobId>, i: nat) {
    (forall k :: i <= k < |rows| ==> rows[k] in start && rows[k] in now && now[rows[k]] == start[rows[k]] && Fresh(now[rows[k]]))
    && (forall k, l :: 0 <= k < l < |rows| ==> rows[k] != rows[l])
  }

  lemma NextUnscanned(start: map<JobId, Row>, now: map<JobId, Row>, rows: seq<JobId>, i: nat)
    requires Unscanned(start, now, rows, i) && i < |rows|
    ensures rows[i] in start && rows[i] in now && now[rows[i]] == start[rows[i]] && Fresh(now[rows[i]])
  {
  }

  lemma StillUnscanned(start: map<JobId, Row>, before: map<JobId, Row>, now: map<JobId, Row>, rows: seq<JobId>, i: nat)
    requires Unscanned(start, before, rows, i) && i < |rows| && rows[i] in now && now == before[rows[i] := now[rows[i]]]
    ensures Unscanned(start, now, rows, i + 1)
  {
  }

  lemma ScanBegins(table: map<JobId, Row>, w: WorkerId, bound: real)
    ensures DispatchedTo(table, table, w, bound, None)
  {
  }

  /** The scan from row `i` is that row's step, then the scan from the next one. */
  lemma ScanNext(table: map<JobId, Row>, rows: seq<JobId>, i: nat, w: WorkerId, bound: real, screen: JobId -> Screening,
                 probe: JobId -> Probe, reply: JobId -> Reply)
    requires SelectedIn(table, rows) && i < |rows|
    ensures var o := ScanRow(rows[i], table[rows[i]], w, bound, screen(rows[i]), probe(rows[i]), reply(rows[i]));
            var after := table[rows[i] := o.row];
            SelectedIn(after, rows)
            && Scan(table, rows[i..], w, bound, screen, probe, reply)
               == if o.stop then after else Scan(after, rows[i + 1..], w, bound, screen, probe, reply)
  {
    hide ScanRow;
    assert rows[i..][0] == rows[i] && rows[i..][1..] == rows[i + 1..];
  }

  lemma ScanEnds(table: map<JobId, Row>, rows: seq<JobId>, w: WorkerId, bound: real, screen: JobId -> Screening,
                 probe: JobId -> Probe, reply: JobId -> Reply)
    ensures Scan(table, rows[|rows|..], w, bound, screen, probe, reply) == table
  {
    assert rows[|rows|..] == [];
  }

  lemma ScanMore(start: map<JobId, Row>, before: map<JobId, Row>, now: map<JobId, Row>, w: WorkerId, bound: real, j: JobId,
                 admitted: Option<JobId>)
    requires DispatchedTo(start, before, w, bound, None) && j in before && j in now && now == before[j := now[j]]
    requires before[j].state.Queued? && before[j] == start[j]
    requires if admitted.None? then Unadmitted(before[j], now[j])
             else admitted.value == j && AdmittedTo(before[j], now[j], w, bound)
    ensures DispatchedTo(start, now, w, bound, admitted)
  {
  }

  ghost predicate Attempted(table: map<JobId, Row>) {
    forall j :: j in table && table[j].state.Submitted? ==> table[j].attempt >= 1
  }

  /** A turn of `w`: one admission to it, or no row newly submitted, and only its own submitted row reconciled. */
  ghost predicate Visited(before: map<JobId, Row>, now: map<JobId, Row>, w: WorkerId, job: Option<JobId>, source: nat) {
    now.Keys == before.Keys
    && (forall j :: j in now && job != Some(j) ==>
          Unadmitted(before[j], now[j])
          || (before[j].state.Submitted? && before[j].worker == w && now[j].sourceBytes == before[j].sourceBytes
              && !now[j].state.Queued? && now[j].attempt >= 1))
    && (job.Some? ==>
          job.value in now && before[job.value].state.Queued? && now[job.value].state.Submitted? && now[job.value].attempt >= 1
          && now[job.value].worker == w && now[job.value].sourceBytes == before[job.value].sourceBytes == source)
  }

  lemma Unvisited(table: map<JobId, Row>, w: WorkerId)
    ensures Visited(table, table, w, None, 0) && forall j :: j in table ==> Unadmitted(table[j], table[j])
  {
  }

  /**
   The pass took `admitted` from queued to submitted, one per worker of `workers`, and submitted nothing else.
   */
  ghost predicate Admissions(start: map<JobId, Row>, now: map<JobId, Row>, admitted: seq<JobId>, sources: seq<nat>,
                             workers: seq<WorkerId>) {
    && now.Keys == start.Keys && |sources| == |admitted|
    && (forall k :: 0 <= k < |admitted| ==> AdmittedNow(start, now, admitted[k], sources[k], workers))
    && (forall k, l :: 0 <= k < l < |admitted| && admitted[k] in now && admitted[l] in now ==>
          now[admitted[k]].worker != now[admitted[l]].worker)
    && (forall j :: j in now && now[j].state.Submitted? && !start[j].state.Submitted? ==> j in admitted)
    && (forall j :: j in now ==> now[j].sourceBytes == start[j].sourceBytes && (now[j].state.Queued? ==> start[j].state.Queued?))
    && (forall j :: j in now && now[j].state.Submitted? ==> now[j].attempt >= 1)
  }

  ghost predicate AdmittedNow(start: map<JobId, Row>, now: map<JobId, Row>, j: JobId, source: nat, workers: seq<WorkerId>) {
    j in now && j in start && start[j].state.Queued? && now[j].state.Submitted? && now[j].worker in workers
    && source == start[j].sourceBytes
  }

  lemma SubmittedAttempts(start: map<JobId, Row>, now: map<JobId, Row>, admitted: seq<JobId>, sources: seq<nat>,
                          workers: seq<WorkerId>)
    requires Admissions(start, now, admitted, sources, workers)
    ensures Attempted(now)
  {
  }

  lemma SubmitStays(j: JobId, row: Row, w: WorkerId, media: nat, probe: Probe, reply: Reply)
    requires row.state.Submitted? && row.attempt >= 1 && media >= 1
    ensures var q := SubmitRow(j, row, w, media, probe, reply);
            q.sourceBytes == row.sourceBytes && !q.state.Queued? && q.attempt >= 1 && (w == row.worker ==> q.worker == row.worker)
  {
  }

  lemma DeliverStays(j: JobId, row: Row, remote: WState, archived: bool, release: Reply)
    requires row.state.Submitted? && row.attempt >= 1 && remote.Delivered()
    ensures var q := DeliverRow(j, row, remote, archived, release);
            q.sourceBytes == row.sourceBytes && !q.state.Queued? && q.attempt >= 1 && q.worker == row.worker
  {
  }

  lemma ReconcileStays(j: JobId, row: Row, replies: Replies)
    requires row.state.Submitted? && row.attempt >= 1
    ensures var q := ReconcileRow(j, row, replies);
            q.sourceBytes == row.sourceBytes && !q.state.Queued? && q.attempt >= 1 && q.worker == row.worker
  {
    hide SubmitRow, DeliverRow;
    SubmitStays(j, row, row.worker, row.attempt, replies.probe, replies.job);
    SubmitStays(j, row, row.worker, row.attempt + 1, replies.probe, replies.job);
    if replies.get.State? && replies.get.state.Delivered() {
      DeliverStays(j, row, replies.get.state, replies.archived, replies.release);
    }
  }

  lemma ReconcileVisits(table: map<JobId, Row>, w: WorkerId, j: JobId, replies: Replies)
    requires Attempted(table) && j in table && table[j].state.Submitted? && table[j].worker == w
    ensures Visited(table, table[j := ReconcileRow(j, table[j], replies)], w, None, 0)
  {
    hide ReconcileRow;
    ReconcileStays(j, table[j], replies);
    Unvisited(table, w);
  }

  lemma NotYetVisited(workers: seq<WorkerId>, i: nat)
    requires i < |workers| && forall k, l :: 0 <= k < l < |workers| ==> workers[k] != workers[l]
    ensures workers[i] !in workers[..i] && workers[i] in workers[..i + 1] && (forall v :: v in workers[..i] ==> v in workers[..i + 1])
  {
    assert workers[..i + 1] == workers[..i] + [workers[i]];
  }

  /** The next worker's turn keeps the account of the pass. */
  lemma VisitedMore(start: map<JobId, Row>, before: map<JobId, Row>, now: map<JobId, Row>, admitted: seq<JobId>,
                    sources: seq<nat>, workers: seq<WorkerId>, i: nat, job: Option<JobId>, source: nat)
    requires i < |workers| && forall k, l :: 0 <= k < l < |workers| ==> workers[k] != workers[l]
    requires Admissions(start, before, admitted, sources, workers[..i]) && Visited(before, now, workers[i], job, source)
    ensures job.None? ==> Admissions(start, now, admitted, sources, workers[..i + 1])
    ensures job.Some? ==> Admissions(start, now, admitted + [job.value], sources + [source], workers[..i + 1])
  {
    NotYetVisited(workers, i);
    hide Reserved;
    forall k | 0 <= k < |admitted|
      ensures AdmittedNow(start, now, admitted[k], sources[k], workers[..i + 1])
      ensures now[admitted[k]].worker == before[admitted[k]].worker && now[admitted[k]].worker != workers[i]
    {
      AdmittedStill(start, before, now, admitted[k], sources[k], workers, i, job, source);
    }
  }

  lemma AdmittedStill(start: map<JobId, Row>, before: map<JobId, Row>, now: map<JobId, Row>, j: JobId, size: nat,
                      workers: seq<WorkerId>, i: nat, job: Option<JobId>, source: nat)
    requires i < |workers| && forall k, l :: 0 <= k < l < |workers| ==> workers[k] != workers[l]
    requires AdmittedNow(start, before, j, size, workers[..i]) && Visited(before, now, workers[i], job, source)
    ensures AdmittedNow(start, now, j, size, workers[..i + 1])
    ensures now[j].worker == before[j].worker && now[j].worker != workers[i]
  {
    NotYetVisited(workers, i);
    hide Reserved;
  }

  // ----- the charge of a pass -----

  predicate EachOnce(all: seq<JobId>, table: map<JobId, Row>) {
    (forall i :: 0 <= i < |all| ==> all[i] in table) && forall i, k :: 0 <= i < k < |all| ==> all[i] != all[k]
  }

  function RowsIn(table: map<JobId, Row>, all: seq<JobId>): seq<Row>
    requires forall i :: 0 <= i < |all| ==> all[i] in table
  {
    seq(|all|, i requires 0 <= i < |all| => table[all[i]])
  }

  /** Three exports at most, and neither the kept receipt nor the delivered one is above the export cap. */
  predicate Fits(row: Row, replies: Replies) {
    row.exports <= MAX_EXPORTS
    && (row.attempt in row.receipts ==> row.receipts[row.attempt].exportBytes <= ExportCap(row.sourceBytes))
    && (replies.get.State? && replies.get.state.Delivered() ==> ReceiptBytes(replies.get.state.receipts) <= ExportCap(row.sourceBytes))
  }

  /** Every row this pass may reconcile fits; in a reachable state it does (ControllerRuns.ReachableFits). */
  ghost predicate AllFit(table: map<JobId, Row>, workers: seq<WorkerId>, replies: WorkerId -> Replies) {
    forall j, i :: j in table && 0 <= i < |workers| && table[j].state.Submitted? && table[j].worker == workers[i] ==>
      Fits(table[j], replies(workers[i]))
  }

  /** What a turn of `w` did to the charges. */
  ghost predicate Charged(before: map<JobId, Row>, now: map<JobId, Row>, w: WorkerId, job: Option<JobId>, source: nat, replies: Replies) {
    now.Keys == before.Keys
    && (forall j :: j in now && job != Some(j) ==>
          Reserved(now[j]) == Reserved(before[j])
          || (before[j].state.Submitted? && before[j].worker == w && now[j] == ReconcileRow(j, before[j], replies)))
    && (job.Some? ==>
          job.value in now && before[job.value].state.Queued?
          && Reserved(before[job.value]) == 0 && Reserved(now[job.value]) == Reservation(source))
    && (forall j :: j in now && before[j].state.Submitted? && before[j].worker != w ==> now[j] == before[j])
    && (forall j :: j in now && now[j].state.Submitted? && job != Some(j) ==>
          before[j].state.Submitted? && now[j].worker == before[j].worker)
  }

  lemma Uncharged(table: map<JobId, Row>, w: WorkerId, replies: Replies)
    ensures Charged(table, table, w, None, 0, replies)
  {
  }

  lemma ReconcileCharges(table: map<JobId, Row>, w: WorkerId, j: JobId, replies: Replies)
    requires Attempted(table) && j in table && table[j].state.Submitted? && table[j].worker == w
    ensures Charged(table, table[j := ReconcileRow(j, table[j], replies)], w, None, 0, replies)
  {
    hide ReconcileRow, Reserved;
    ReconcileStays(j, table[j], replies);
  }

  lemma DispatchCharges(before: map<JobId, Row>, now: map<JobId, Row>, w: WorkerId, bound: real, job: Option<JobId>, source: nat,
                        replies: Replies)
    requires DispatchedTo(before, now, w, bound, job)
    requires job.Some? ==> job.value in now && source == now[job.value].sourceBytes
    ensures Charged(before, now, w, job, source, replies)
  {
    hide ReconcileRow, Usd;
  }

  /** A reconciled row that fits never charges more than before. */
  lemma ReconciledCharge(j: JobId, row: Row, replies: Replies)
    requires row.state.Submitted? && row.attempt >= 1 && Fits(row, replies)
    ensures Reserved(ReconcileRow(j, row, replies)) <= Reserved(row)
  {
    ReconcileStays(j, row, replies);
    if ReconcileRow(j, row, replies).state.StagedVerified? {
      VerifiedByReconcile(j, row, replies);
    }
    hide ReconcileRow;
    var q := ReconcileRow(j, row, replies);
    if q.state.StagedVerified? {
      ThreeExports(q.exports, q.result.value.exportBytes, row.sourceBytes);
    }
  }

  lemma VerifiedByReconcile(j: JobId, row: Row, replies: Replies)
    requires row.state.Submitted? && ReconcileRow(j, row, replies).state.StagedVerified? && Fits(row, replies)
    ensures var q := ReconcileRow(j, row, replies);
            q.exports == row.exports && q.result.Some? && q.result.value.exportBytes <= ExportCap(row.sourceBytes)
  {
    hide ReadbackAccounted, NamedAndProven, Bytes, ReceiptBytes, DeliverRow, ExportCap;
    if replies.get.State? && replies.get.state.Delivered() {
      VerifiedByDelivery(j, row, replies.get.state, replies.archived, replies.release);
    }
  }

  lemma VerifiedByDelivery(j: JobId, row: Row, remote: WState, archived: bool, release: Reply)
    requires row.state.Submitted? && remote.Delivered() && remote.attempt == row.attempt
    requires row.attempt in row.receipts ==> row.receipts[row.attempt].exportBytes <= ExportCap(row.sourceBytes)
    requires ReceiptBytes(remote.receipts) <= ExportCap(row.sourceBytes)
    ensures var q := DeliverRow(j, row, remote, archived, release);
            q.state.StagedVerified? ==>
              q.exports == row.exports && q.result.Some? && q.result.value.exportBytes <= ExportCap(row.sourceBytes)
  {
    hide ReadbackAccounted, NamedAndProven, Bytes, ReceiptBytes, ExportCap;
  }

  /** The submitted rows of the workers not yet visited are as they were. */
  ghost predicate Waiting(start: map<JobId, Row>, now: map<JobId, Row>, workers: seq<WorkerId>) {
    now.Keys == start.Keys
    && (forall j :: j in start && start[j].state.Submitted? && start[j].worker !in workers ==> now[j] == start[j])
    && (forall j :: j in start && start[j].state.Submitted? && now[j].state.Submitted? ==> now[j].worker == start[j].worker)
  }

  /** Before the `i`th worker's turn the charge grew by the new reservations at most. */
  ghost predicate Spent(start: map<JobId, Row>, now: map<JobId, Row>, sources: seq<nat>, workers: seq<WorkerId>, i: nat,
                        replies: WorkerId -> Replies, all: seq<JobId>) {
    i <= |workers| && Waiting(start, now, workers[..i]) && EachOnce(all, start)
    && (AllFit(start, workers, replies) ==> TransferUsd(RowsIn(now, all)) <= TransferUsd(RowsIn(start, all)) + ReservationsUsd(sources))
  }

  /** What a pass has done before the `i`th worker's turn. */
  ghost predicate SoFar(start: map<JobId, Row>, now: map<JobId, Row>, admitted: seq<JobId>, sources: seq<nat>, workers: seq<WorkerId>,
                        i: nat, bound: real, replies: WorkerId -> Replies, all: seq<JobId>) {
    i <= |workers| && |admitted| <= i && WithinPass(bound, sources) && Admissions(start, now, admitted, sources, workers[..i])
    && Spent(start, now, sources, workers, i, replies, all)
  }

  lemma PassBegins(start: map<JobId, Row>, workers: seq<WorkerId>, replies: WorkerId -> Replies, all: seq<JobId>, bound: real)
    requires EachOnce(all, start) && Attempted(start)
    ensures SoFar(start, start, [], [], workers, 0, bound, replies, all)
  {
  }

  lemma SoFarAttempted(start: map<JobId, Row>, now: map<JobId, Row>, admitted: seq<JobId>, sources: seq<nat>, workers: seq<WorkerId>,
                       i: nat, bound: real, replies: WorkerId -> Replies, all: seq<JobId>)
    requires SoFar(start, now, admitted, sources, workers, i, bound, replies, all)
    ensures Attempted(now)
  {
    SubmittedAttempts(start, now, admitted, sources, workers[..i]);
  }

  lemma TurnAdds(start: map<JobId, Row>, before: map<JobId, Row>, now: map<JobId, Row>, admitted: seq<JobId>, sources: seq<nat>,
                 workers: seq<WorkerId>, i: nat, bound: real, replies: WorkerId -> Replies, all: seq<JobId>,
                 job: Option<JobId>, source: nat)
    requires i < |workers| && forall k, l :: 0 <= k < l < |workers| ==> workers[k] != workers[l]
    requires SoFar(start, before, admitted, sources, workers, i, bound, replies, all)
    requires Visited(before, now, workers[i], job, source) && Charged(before, now, workers[i], job, source, replies(workers[i]))
    requires job.Some? ==> source <= 8 * GIB && bound + Usd(Reservation(source)) < 90.0
    ensures var admitted' := if job.Some? then admitted + [job.value] else admitted;
            var sources' := if job.Some? then sources + [source] else sources;
            SoFar(start, now, admitted', sources', workers, i + 1, bound, replies, all)
  {
    hide Admissions, Visited, Charged, Spent, WithinPass, Usd, Reservation;
    SpentMore(start, before, now, admitted, sources, workers, i, job, source, replies, all);
    VisitedMore(start, before, now, admitted, sources, workers, i, job, source);
    if job.Some? {
      WithinOne(bound, sources, source);
    }
  }

  lemma PassEnds(start: map<JobId, Row>, now: map<JobId, Row>, admitted: seq<JobId>, sources: seq<nat>, workers: seq<WorkerId>,
                 bound: real, replies: WorkerId -> Replies, all: seq<JobId>)
    requires |workers| <= 8 && SoFar(start, now, admitted, sources, workers, |workers|, bound, replies, all)
    ensures |admitted| <= |workers| && Admissions(start, now, admitted, sources, workers) && EachOnce(all, now)
    ensures sources != [] ==> bound + ReservationsUsd(sources) < 93.38625
    ensures AllFit(start, workers, replies) ==>
              TransferUsd(RowsIn(now, all)) <= TransferUsd(RowsIn(start, all)) + ReservationsUsd(sources)
  {
    assert workers[..|workers|] == workers;
    assert |sources| == |admitted| && EachOnce(all, now);
    hide Admissions, EachOnce, AllFit, TransferUsd, RowsIn;
    PassBound(bound, sources);
  }

  lemma {:induction false} ChargeOfTurn(before: map<JobId, Row>, now: map<JobId, Row>, job: Option<JobId>, source: nat, all: seq<JobId>)
    requires EachOnce(all, before) && now.Keys == before.Keys
    requires forall j :: j in now && job != Some(j) ==> Reserved(now[j]) <= Reserved(before[j])
    requires job.Some? ==> job.value in now && Reserved(before[job.value]) == 0 && Reserved(now[job.value]) == Reservation(source)
    ensures TransferUsd(RowsIn(now, all))
            <= TransferUsd(RowsIn(before, all)) + if job.Some? && job.value in all then Usd(Reservation(source)) else 0.0
    decreases |all|
  {
    hide Reserved, Reservation;
    if all != [] {
      var n := |all| - 1;
      var j := all[n];
      ChargeOfTurn(before, now, job, source, all[..n]);
      assert RowsIn(now, all)[..n] == RowsIn(now, all[..n]) && RowsIn(before, all)[..n] == RowsIn(before, all[..n]);
      assert all == all[..n] + [j];
      if job != Some(j) {
        UsdMonotone(Reserved(now[j]), Reserved(before[j]));
      }
    }
  }

  lemma SubmittedWhere(start: map<JobId, Row>, now: map<JobId, Row>, admitted: seq<JobId>, sources: seq<nat>, workers: seq<WorkerId>,
                       j: JobId)
    requires Admissions(start, now, admitted, sources, workers) && j in now && now[j].state.Submitted?
    ensures j in start && (start[j].state.Submitted? || now[j].worker in workers)
  {
    if !start[j].state.Submitted? {
      var k :| 0 <= k < |admitted| && admitted[k] == j;
      assert AdmittedNow(start, now, admitted[k], sources[k], workers);
    }
  }

  lemma TurnFits(start: map<JobId, Row>, before: map<JobId, Row>, now: map<JobId, Row>, admitted: seq<JobId>, sources: seq<nat>,
                 workers: seq<WorkerId>, i: nat, job: Option<JobId>, source: nat, replies: WorkerId -> Replies, all: seq<JobId>, j: JobId)
    requires i < |workers| && forall k, l :: 0 <= k < l < |workers| ==> workers[k] != workers[l]
    requires Admissions(start, before, admitted, sources, workers[..i]) && Spent(start, before, sources, workers, i, replies, all)
    requires Charged(before, now, workers[i], job, source, replies(workers[i])) && AllFit(start, workers, replies)
    requires j in now && job != Some(j)
    ensures Reserved(now[j]) <= Reserved(before[j])
  {
    hide Reserved, ReconcileRow, Fits, TransferUsd;
    NotYetVisited(workers, i);
    if Reserved(now[j]) != Reserved(before[j]) {
      assert before[j].state.Submitted? && before[j].worker == workers[i];
      SubmittedWhere(start, before, admitted, sources, workers[..i], j);
      assert before[j] == start[j] && Fits(before[j], replies(workers[i]));
      ReconciledCharge(j, before[j], replies(workers[i]));
    }
  }

  lemma SpentMore(start: map<JobId, Row>, before: map<JobId, Row>, now: map<JobId, Row>, admitted: seq<JobId>, sources: seq<nat>,
                  workers: seq<WorkerId>, i: nat, job: Option<JobId>, source: nat, replies: WorkerId -> Replies, all: seq<JobId>)
    requires i < |workers| && forall k, l :: 0 <= k < l < |workers| ==> workers[k] != workers[l]
    requires Admissions(start, before, admitted, sources, workers[..i]) && Spent(start, before, sources, workers, i, replies, all)
    requires Charged(before, now, workers[i], job, source, replies(workers[i]))
    ensures job.None? ==> Spent(start, now, sources, workers, i + 1, replies, all)
    ensures job.Some? ==> Spent(start, now, sources + [source], workers, i + 1, replies, all)
  {
    NotQueuedAgain(start, before, admitted, sources, workers[..i]);
    WaitingMore(start, before, now, workers, i, job, source, replies(workers[i]));
    TurnOnce(before, now, workers[i], job, source, replies(workers[i]));
    assert EachOnce(all, before);
    hide Reserved, ReconcileRow, Reservation, Fits, AllFit, Charged, Admissions, Waiting, EachOnce, RowsIn, TransferUsd, Usd;
    if AllFit(start, workers, replies) {
      forall j | j in now && job != Some(j) ensures Reserved(now[j]) <= Reserved(before[j]) {
        TurnFits(start, before, now, admitted, sources, workers, i, job, source, replies, all, j);
      }
      ChargeOfTurn(before, now, job, source, all);
      UsdPositive(Reservation(source));
    }
    assert (sources + [source])[..|sources|] == sources;
  }

  lemma NotQueuedAgain(start: map<JobId, Row>, now: map<JobId, Row>, admitted: seq<JobId>, sources: seq<nat>, workers: seq<WorkerId>)
    requires Admissions(start, now, admitted, sources, workers)
    ensures forall j :: j in now && now[j].state.Queued? ==> start[j].state.Queued?
  {
  }

  lemma WaitingMore(start: map<JobId, Row>, before: map<JobId, Row>, now: map<JobId, Row>, workers: seq<WorkerId>, i: nat,
                    job: Option<JobId>, source: nat, replies: Replies)
    requires i < |workers| && Waiting(start, before, workers[..i]) && Charged(before, now, workers[i], job, source, replies)
    requires forall j :: j in before && before[j].state.Queued? ==> start[j].state.Queued?
    ensures Waiting(start, now, workers[..i + 1])
  {
    hide Reserved, ReconcileRow, Reservation;
    assert workers[..i + 1] == workers[..i] + [workers[i]];
  }

  lemma TurnOnce(before: map<JobId, Row>, now: map<JobId, Row>, w: WorkerId, job: Option<JobId>, source: nat, replies: Replies)
    requires Charged(before, now, w, job, source, replies)
    ensures now.Keys == before.Keys
    ensures job.Some? ==>
              job.value in now && Reserved(before[job.value]) == 0 && Reserved(now[job.value]) == Reservation(source)
  {
  }

  lemma UsdPositive(bytes: nat)
    ensures Usd(bytes) >= 0.0
  {
  }

  lemma WithinOne(bound: real, sources: seq<nat>, source: nat)
    requires WithinPass(bound, sources) && source <= 8 * GIB && bound + Usd(Reservation(source)) < 90.0
    ensures WithinPass(bound, sources + [source])
  {
  }

  /** A row a dispatch did not leave submitted: same charge, and submitted only if it was before. */
  ghost predicate Unadmitted(r: Row, q: Row) {
    q.sourceBytes == r.sourceBytes && Reserved(q) == Reserved(r) && (q.state.Submitted? <==> r.state.Submitted?)
    && (q == r || r.state.Queued?)
  }

  lemma SubmittedOrNot(j: JobId, row: Row, w: WorkerId, probe: Probe, reply: Reply)
    requires row.state.Queued? && row.attempt == 0
    ensures var q := SubmitRow(j, row, w, 1, probe, reply);
            if q.state.Submitted? then q.worker == w && q.attempt == 1 && q.sourceBytes == row.sourceBytes
              && !SubmitOutcome(row, probe, reply).Deferred?
            else Unadmitted(row, q)
  {
  }

  /** Every admission fits by itself under 90 dollars, and none is larger than 8 GiB. */
  predicate WithinPass(bound: real, sources: seq<nat>) {
    forall i :: 0 <= i < |sources| ==> sources[i] <= 8 * GIB && bound + Usd(Reservation(sources[i])) < 90.0
  }

  lemma LargestReservation(source: nat)
    requires source <= 8 * GIB
    ensures Usd(Reservation(source)) <= 0.48375
  {
    assert Reservation(source) <= 48 * GIB + 384 * MIB;
    UsdMonotone(Reservation(source), 48 * GIB + 384 * MIB);
    assert (48 * GIB + 384 * MIB) as real == 48.375 * GIB as real;
  }

  lemma {:induction false} PassTotal(bound: real, sources: seq<nat>)
    requires WithinPass(bound, sources) && sources != []
    ensures bound + ReservationsUsd(sources) < 90.0 + (|sources| - 1) as real * 0.48375
  {
    var n := |sources| - 1;
    if n == 0 {
      assert sources[..0] == [];
    } else {
      PassTotal(bound, sources[..n]);
      LargestReservation(sources[n]);
    }
  }

  /** Eight admissions against one bound stay under the hard stop of 94. */
  lemma PassBound(bound: real, sources: seq<nat>)
    requires WithinPass(bound, sources) && |sources| <= 8
    ensures sources != [] ==> bound + ReservationsUsd(sources) < 93.38625 < 94.0
  {
    if sources != [] {
      PassTotal(bound, sources);
      assert (|sources| - 1) as real <= 7.0;
    }
  }
}
