/** What whole calls of the staging controller do to rows: `submit`, `reconcile`, the scan of `dispatch`, one pass. */
module ControllerCalls {
  import opened Wrappers
  import opened StagingTypes
  import opened ControllerProtocol
  import opened Ledger
  import opened WorkerProtocol

  /** A transport failure, or an HTTP status. */
  datatype Reply = NoReply | Status(code: nat)

  /** The `/ready` probe and the source HEADs before a submission. */
  datatype Probe = WorkerBusy | HeadsMissing | Go

  datatype Submission = Sent | Deferred | Raised

  /** `/job?id=`: unreachable, 404, or the state file. */
  datatype GetReply = Unreachable | Missing | State(state: WState)

  datatype Replies = Replies(get: GetReply, idle: bool, probe: Probe, job: Reply, export_: Reply, archived: bool, release: Reply)

  /** Structure screening of a job's sources. */
  datatype Screening = Failing | Incomplete | Passing

  // ----- what a whole call does to a row -----

  function SubmitRow(j: JobId, row: Row, w: WorkerId, media: nat, probe: Probe, reply: Reply): Row {
    var o := BeginSubmit(j, row, w, media, probe.Go?);
    if o.call.Sending? && reply.Status? then
      Settle(j, o.row, o.call.msg, o.call.priorAttempt, o.call.priorCount, reply.code).row
    else o.row
  }

  /** A full count or unreadable sources defer the job, and so does a refusal; anything else ends the scan. */
  function SubmitOutcome(row: Row, probe: Probe, reply: Reply): Submission {
    if row.submissions >= MAX_SUBMISSIONS || probe.HeadsMissing? then Deferred
    else if probe.WorkerBusy? || reply.NoReply? then Raised
    else if Refusal(reply.code) then Deferred
    else if reply.code == 200 || reply.code == 202 then Sent
    else Raised
  }

  datatype Scanned = Scanned(row: Row, stop: bool)

  /** What the scan does to one row, and whether it ends there. */
  function ScanRow(j: JobId, row: Row, w: WorkerId, bound: real, screen: Screening, probe: Probe, reply: Reply): Scanned {
    match screen
    case Failing => Scanned(row.(state := HeldStructure), false)
    case Incomplete => Scanned(row, false)
    case Passing =>
      if bound + Usd(Reservation(row.sourceBytes)) + 5.0 >= 95.0 then Scanned(row, true)
      else Scanned(SubmitRow(j, row, w, 1, probe, reply), !SubmitOutcome(row, probe, reply).Deferred?)
  }

  /** The scan of the selected rows, in order, up to the one that ends it. */
  function Scan(table: map<JobId, Row>, rows: seq<JobId>, w: WorkerId, bound: real, screen: JobId -> Screening,
                probe: JobId -> Probe, reply: JobId -> Reply): map<JobId, Row>
    requires forall i :: 0 <= i < |rows| ==> rows[i] in table
  {
    if rows == [] then table
    else
      var o := ScanRow(rows[0], table[rows[0]], w, bound, screen(rows[0]), probe(rows[0]), reply(rows[0]));
      var after := table[rows[0] := o.row];
      if o.stop then after else Scan(after, rows[1..], w, bound, screen, probe, reply)
  }

  function SaveAndRelease(j: JobId, row: Row, remote: WState, release: Reply): Row
    requires row.attempt in row.receipts
  {
    var o := SaveResult(j, row, remote);
    if o.call.Finishing? || release == Status(200) then Finish(o.row) else o.row
  }

  function DeliverRow(j: JobId, row: Row, remote: WState, archived: bool, release: Reply): Row
    requires remote.Delivered()
  {
    var o := BeginArchive(j, row, remote);
    match o.call
    case Archiving(_, _) => if archived then SaveAndRelease(j, KeepReceipt(j, o.row, remote), remote, release) else o.row
    case Archived(_, _) => SaveAndRelease(j, o.row, remote, release)
    case _ => o.row
  }

  function ReconcileRow(j: JobId, row: Row, replies: Replies): Row {
    match replies.get
    case Unreachable => row
    case Missing =>
      if replies.idle then SubmitRow(j, row, row.worker, row.attempt, replies.probe, replies.job) else row
    case State(remote) =>
      if remote.attempt != row.attempt then
        if remote.attempt + 1 == row.attempt && remote.Restarted() then
          SubmitRow(j, row, row.worker, row.attempt, replies.probe, replies.job)
        else row
      else if remote.Accepted? || remote.Running? || remote.Exporting? then row
      else if remote.Failed? then
        if remote.Restarted() && row.attempt < MAX_ATTEMPTS then
          SubmitRow(j, row, row.worker, row.attempt + 1, replies.probe, replies.job)
        else row.(state := Held)
      else if !remote.result.stagingOnly || !remote.result.hourMatches then row
      else if remote.Delivered() then DeliverRow(j, row, remote, replies.archived, replies.release)
      else BeginExport(j, row, remote.result.outputs).row
  }

  /** The steps a call takes after the commit `o`, with the transport's answers; no answer is a `GiveUp`. */
  function Carried(j: JobId, o: Outcome, replies: Replies): Row {
    match o.call
    case Sending(_, JobPost(w, media), prior, priorCount) =>
      if replies.job.Status? then Settle(j, o.row, JobPost(w, media), prior, priorCount, replies.job.code).row else o.row
    case Archiving(_, snap) =>
      if replies.archived && snap.Some? && snap.value.Delivered() then
        SaveAndRelease(j, KeepReceipt(j, o.row, snap.value), snap.value, replies.release)
      else o.row
    case Archived(_, snap) =>
      if snap.Some? && o.row.attempt in o.row.receipts then SaveAndRelease(j, o.row, snap.value, replies.release) else o.row
    case _ => o.row
  }

  /** A whole `reconcile` call is the protocol's reconciliation carried on by its settling steps. */
  lemma ReconcileIsProtocol(j: JobId, row: Row, replies: Replies)
    requires !replies.get.Unreachable?
    ensures var snap := if replies.get.Missing? then None else Some(replies.get.state);
            ReconcileRow(j, row, replies) == Carried(j, Reconcile(j, row, snap, replies.idle, replies.probe.Go?), replies)
  {
  }

  // ----- what a scan comes to, row by row -----

  function CountOf(table: map<JobId, nat>, j: JobId): nat { if j in table then table[j] else 0 }

  /** Definite refusals of a `/job` POST. */
  predicate Refused(reply: Reply) { reply.Status? && reply.code in {409, 503, 507} }

  /** A row the dispatch query offers. */
  predicate Offered(table: map<JobId, Row>, files: map<JobId, nat>, deferred: set<JobId>, j: JobId) {
    j in table && table[j].state.Queued? && table[j].attempt == 0 && 0 < table[j].sourceBytes <= 8 * GIB
    && CountOf(files, j) <= 240 && j !in deferred
  }

  predicate Affordable(row: Row, bound: real) { bound + Usd(Reservation(row.sourceBytes)) < 90.0 }

  /** The row's own POST is not possible or was refused, and the scan goes on. */
  predicate PassedOver(row: Row, bound: real, screen: Screening, probe: Probe, reply: Reply) {
    screen.Failing? || screen.Incomplete?
    || (Affordable(row, bound) && (row.submissions >= 3 || probe.HeadsMissing? || (probe.Go? && Refused(reply))))
  }

  /** The row is put off: a source is missing, or the worker refused it. */
  predicate PutOff(row: Row, bound: real, screen: Screening, probe: Probe, reply: Reply) {
    screen.Passing? && Affordable(row, bound) && row.submissions < 3 && (probe.HeadsMissing? || (probe.Go? && Refused(reply)))
  }

  /** The row is submitted, and the worker may have it. */
  predicate Taken(row: Row, bound: real, screen: Screening, probe: Probe, reply: Reply) {
    screen.Passing? && Affordable(row, bound) && row.submissions < 3 && probe.Go? && !Refused(reply)
  }

  /** What becomes of a row the scan gets to. */
  predicate Decided(r: Row, q: Row, w: WorkerId, bound: real, screen: Screening, probe: Probe, reply: Reply) {
    if screen.Failing? then q == r.(state := HeldStructure)
    else if screen.Incomplete? || !Affordable(r, bound) then q == r
    else if r.submissions >= 3 then q == r.(state := HeldSubmission)
    else if !probe.Go? then q == r
    else if Refused(reply) then q == r.(worker := w)
    else q == r.(state := Submitted, worker := w, attempt := 1, submissions := r.submissions + 1)
  }

  /** A row the scan got to: what became of it, and whether it was taken or put off. */
  predicate Done(r: Row, q: Row, taken: bool, put: bool, w: WorkerId, bound: real, screen: Screening, probe: Probe, reply: Reply) {
    Decided(r, q, w, bound, screen, probe, reply) && (taken <==> Taken(r, bound, screen, probe, reply))
    && (put <==> PutOff(r, bound, screen, probe, reply))
  }

  /** One row of the scan: what becomes of it, and whether the scan goes on. */
  lemma RowDecided(j: JobId, row: Row, w: WorkerId, bound: real, screen: Screening, probe: Probe, reply: Reply)
    requires row.state.Queued? && row.attempt == 0
    ensures var o := ScanRow(j, row, w, bound, screen, probe, reply);
            Decided(row, o.row, w, bound, screen, probe, reply) && (o.stop <==> !PassedOver(row, bound, screen, probe, reply))
            && (o.row.state.Submitted? <==> Taken(row, bound, screen, probe, reply))
  {
  }

  /** The offered rows of the queue order. */
  function Offers(table: map<JobId, Row>, files: map<JobId, nat>, deferred: set<JobId>, order: seq<JobId>): (rows: seq<JobId>)
    ensures forall i :: 0 <= i < |rows| ==> rows[i] in table
  {
    if order == [] then []
    else
      var n := |order| - 1;
      Offers(table, files, deferred, order[..n]) + (if Offered(table, files, deferred, order[n]) then [order[n]] else [])
  }

  /** Exactly the offered rows, each once. */
  lemma {:induction false} OffersEach(table: map<JobId, Row>, files: map<JobId, nat>, deferred: set<JobId>, order: seq<JobId>)
    requires forall i, k :: 0 <= i < k < |order| ==> order[i] != order[k]
    ensures var rows := Offers(table, files, deferred, order);
            (forall i :: 0 <= i < |rows| ==> rows[i] in order && Offered(table, files, deferred, rows[i]))
            && (forall i, k :: 0 <= i < k < |rows| ==> rows[i] != rows[k])
            && (forall j :: j in order && Offered(table, files, deferred, j) ==> j in rows)
  {
    hide Offered;
    if order != [] {
      var n := |order| - 1;
      OffersEach(table, files, deferred, order[..n]);
      assert order == order[..n] + [order[n]];
    }
  }

  /** An offered row comes right after the ones offered before it. */
  lemma {:induction false} OfferedAt(table: map<JobId, Row>, files: map<JobId, nat>, deferred: set<JobId>, order: seq<JobId>, k: nat)
    requires k < |order| && Offered(table, files, deferred, order[k])
    ensures var rows, front := Offers(table, files, deferred, order), Offers(table, files, deferred, order[..k]);
            |front| < |rows| && rows[|front|] == order[k] && rows[..|front|] == front
    decreases |order|
  {
    hide Offered;
    var n := |order| - 1;
    if k < n {
      OfferedAt(table, files, deferred, order[..n], k);
      assert order[..n][..k] == order[..k];
    }
  }

  /** The scan gets to position `k` of the queue order: every row offered before it is passed over. */
  ghost predicate Reached(table: map<JobId, Row>, files: map<JobId, nat>, deferred: set<JobId>, order: seq<JobId>, k: nat, bound: real,
                          screen: JobId -> Screening, probe: JobId -> Probe, reply: JobId -> Reply) {
    k < |order| && Offered(table, files, deferred, order[k])
    && forall i :: 0 <= i < k && Offered(table, files, deferred, order[i]) ==>
         PassedOver(table[order[i]], bound, screen(order[i]), probe(order[i]), reply(order[i]))
  }

  /**
   What a `dispatch` call comes to, told by queue position: the rows it gets to are decided one by one, the others are as
   they were; `admitted` is the one taken, if any; the rows put off are deferred.
   */
  ghost predicate Dispatched(before: map<JobId, Row>, now: map<JobId, Row>, files: map<JobId, nat>, was: set<JobId>, deferred: set<JobId>,
                             order: seq<JobId>, w: WorkerId, bound: real, screen: JobId -> Screening, probe: JobId -> Probe,
                             reply: JobId -> Reply, admitted: Option<JobId>) {
    now.Keys == before.Keys
    && (forall k :: 0 <= k < |order| && Reached(before, files, was, order, k, bound, screen, probe, reply) ==>
          var j := order[k];
          Done(before[j], now[j], admitted == Some(j), j in deferred, w, bound, screen(j), probe(j), reply(j)))
    && (forall j :: j in now && (forall k :: 0 <= k < |order| && order[k] == j ==>
                                   !Reached(before, files, was, order, k, bound, screen, probe, reply)) ==>
          now[j] == before[j] && admitted != Some(j) && (j in deferred <==> j in was))
  }

  /** The first `n` of the offered rows are decided; all of them but perhaps the last were passed over. */
  ghost predicate RowsDecided(before: map<JobId, Row>, now: map<JobId, Row>, was: set<JobId>, deferred: set<JobId>, rows: seq<JobId>,
                              n: nat, w: WorkerId, bound: real, screen: JobId -> Screening, probe: JobId -> Probe,
                              reply: JobId -> Reply, admitted: Option<JobId>) {
    n <= |rows| && now.Keys == before.Keys && (forall i :: 0 <= i < |rows| ==> rows[i] in before && rows[i] !in was)
    && EachDone(before, now, deferred, rows, n, w, bound, screen, probe, reply, admitted)
    && (forall i :: 0 <= i < n - 1 ==> PassedOver(before[rows[i]], bound, screen(rows[i]), probe(rows[i]), reply(rows[i])))
    && OthersLeft(before, now, was, deferred, rows, n, admitted)
  }

  ghost predicate EachDone(before: map<JobId, Row>, now: map<JobId, Row>, deferred: set<JobId>, rows: seq<JobId>, n: nat, w: WorkerId,
                           bound: real, screen: JobId -> Screening, probe: JobId -> Probe, reply: JobId -> Reply,
                           admitted: Option<JobId>) {
    n <= |rows|
    && forall i :: 0 <= i < n ==>
         var j := rows[i];
         j in before && j in now
         && Done(before[j], now[j], admitted == Some(j), j in deferred, w, bound, screen(j), probe(j), reply(j))
  }

  ghost predicate OthersLeft(before: map<JobId, Row>, now: map<JobId, Row>, was: set<JobId>, deferred: set<JobId>, rows: seq<JobId>,
                             n: nat, admitted: Option<JobId>) {
    n <= |rows| && now.Keys == before.Keys
    && forall j :: j in now && j !in rows[..n] ==> now[j] == before[j] && admitted != Some(j) && (j in deferred <==> j in was)
  }

  lemma NoneDecided(table: map<JobId, Row>, deferred: set<JobId>, rows: seq<JobId>, w: WorkerId, bound: real,
                    screen: JobId -> Screening, probe: JobId -> Probe, reply: JobId -> Reply)
    requires forall i :: 0 <= i < |rows| ==> rows[i] in table && rows[i] !in deferred
    ensures RowsDecided(table, table, deferred, deferred, rows, 0, w, bound, screen, probe, reply, None)
  {
  }

  /** One more row of the scan, all before it passed over. */
  lemma OneDecided(start: map<JobId, Row>, before: map<JobId, Row>, now: map<JobId, Row>, was: set<JobId>, mid: set<JobId>,
                   deferred: set<JobId>, rows: seq<JobId>, n: nat, w: WorkerId, bound: real, screen: JobId -> Screening,
                   probe: JobId -> Probe, reply: JobId -> Reply, admitted: Option<JobId>)
    requires RowsDecided(start, before, was, mid, rows, n, w, bound, screen, probe, reply, None) && n < |rows|
    requires forall i, k :: 0 <= i < k < |rows| ==> rows[i] != rows[k]
    requires n > 0 ==> PassedOver(start[rows[n - 1]], bound, screen(rows[n - 1]), probe(rows[n - 1]), reply(rows[n - 1]))
    requires var j := rows[n];
             j in now && now == before[j := now[j]] && Decided(start[j], now[j], w, bound, screen(j), probe(j), reply(j))
             && admitted == (if Taken(start[j], bound, screen(j), probe(j), reply(j)) then Some(j) else None)
             && deferred == mid + if PutOff(start[j], bound, screen(j), probe(j), reply(j)) then {j} else {}
    ensures RowsDecided(start, now, was, deferred, rows, n + 1, w, bound, screen, probe, reply, admitted)
  {
    hide Decided, Taken, PutOff, PassedOver, Done, EachDone, OthersLeft;
    var j := rows[n];
    NotYet(start, before, was, mid, rows, n);
    NotTaken(start[j], now[j], admitted == Some(j), j in deferred, w, bound, screen(j), probe(j), reply(j));
    EarlierDone(start, before, now, mid, deferred, rows, n, w, bound, screen, probe, reply, admitted);
    OthersStillLeft(start, before, now, was, mid, deferred, rows, n, admitted);
  }

  lemma NotYet(start: map<JobId, Row>, before: map<JobId, Row>, was: set<JobId>, mid: set<JobId>, rows: seq<JobId>, n: nat)
    requires OthersLeft(start, before, was, mid, rows, n, None) && n < |rows| && rows[n] in start && rows[n] !in was
    requires forall i, k :: 0 <= i < k < |rows| ==> rows[i] != rows[k]
    ensures rows[n] !in mid
  {
    assert rows[n] !in rows[..n];
  }

  lemma EarlierDone(start: map<JobId, Row>, before: map<JobId, Row>, now: map<JobId, Row>, mid: set<JobId>, deferred: set<JobId>,
                    rows: seq<JobId>, n: nat, w: WorkerId, bound: real, screen: JobId -> Screening, probe: JobId -> Probe,
                    reply: JobId -> Reply, admitted: Option<JobId>)
    requires EachDone(start, before, mid, rows, n, w, bound, screen, probe, reply, None) && n < |rows|
    requires forall i, k :: 0 <= i < k < |rows| ==> rows[i] != rows[k]
    requires var j := rows[n];
             j in start && j in now && now == before[j := now[j]] && (admitted.Some? ==> admitted.value == j)
             && mid <= deferred <= mid + {j}
             && Done(start[j], now[j], admitted == Some(j), j in deferred, w, bound, screen(j), probe(j), reply(j))
    ensures EachDone(start, now, deferred, rows, n + 1, w, bound, screen, probe, reply, admitted)
  {
    hide Done;
    forall i | 0 <= i < n
      ensures var j := rows[i]; j != rows[n] && now[j] == before[j] && admitted != Some(j) && (j in deferred <==> j in mid)
    {
    }
  }

  lemma OthersStillLeft(start: map<JobId, Row>, before: map<JobId, Row>, now: map<JobId, Row>, was: set<JobId>, mid: set<JobId>,
                        deferred: set<JobId>, rows: seq<JobId>, n: nat, admitted: Option<JobId>)
    requires OthersLeft(start, before, was, mid, rows, n, None) && n < |rows| && rows[n] in start
    requires var j := rows[n];
             j in now && now == before[j := now[j]] && (admitted.Some? ==> admitted.value == j) && mid <= deferred <= mid + {j}
    ensures OthersLeft(start, now, was, deferred, rows, n + 1, admitted)
  {
    assert rows[..n + 1] == rows[..n] + [rows[n]];
    forall i | i in now && i !in rows[..n + 1] ensures i !in rows[..n] && i != rows[n] { }
  }

  lemma NotTaken(r: Row, q: Row, taken: bool, put: bool, w: WorkerId, bound: real, screen: Screening, probe: Probe, reply: Reply)
    requires Decided(r, q, w, bound, screen, probe, reply) && (taken <==> Taken(r, bound, screen, probe, reply))
    requires put <==> PutOff(r, bound, screen, probe, reply)
    ensures Done(r, q, taken, put, w, bound, screen, probe, reply)
  {
  }

  /** Rows decided up to the one that ends the scan are the whole call. */
  lemma ScanDecided(before: map<JobId, Row>, now: map<JobId, Row>, files: map<JobId, nat>, was: set<JobId>, deferred: set<JobId>,
                    order: seq<JobId>, n: nat, w: WorkerId, bound: real, screen: JobId -> Screening, probe: JobId -> Probe,
                    reply: JobId -> Reply, admitted: Option<JobId>)
    requires forall i, k :: 0 <= i < k < |order| ==> order[i] != order[k]
    requires var rows := Offers(before, files, was, order);
             RowsDecided(before, now, was, deferred, rows, n, w, bound, screen, probe, reply, admitted)
             && (n == |rows|
                 || (n > 0 && !PassedOver(before[rows[n - 1]], bound, screen(rows[n - 1]), probe(rows[n - 1]), reply(rows[n - 1]))))
    ensures Dispatched(before, now, files, was, deferred, order, w, bound, screen, probe, reply, admitted)
  {
    hide Decided, Taken, PutOff, PassedOver, Offered, Done;
    var rows := Offers(before, files, was, order);
    OffersEach(before, files, was, order);
    forall k | 0 <= k < |order| && Offered(before, files, was, order[k])
      ensures Reached(before, files, was, order, k, bound, screen, probe, reply) <==> order[k] in rows[..n]
    {
      ReachedRow(before, files, was, order, k, n, bound, screen, probe, reply);
    }
    forall j | j in rows[..n]
      ensures exists k :: 0 <= k < |order| && order[k] == j && Reached(before, files, was, order, k, bound, screen, probe, reply)
    {
      assert j in order;
      var k :| 0 <= k < |order| && order[k] == j;
      assert Reached(before, files, was, order, k, bound, screen, probe, reply);
    }
  }

  lemma ReachedRow(table: map<JobId, Row>, files: map<JobId, nat>, was: set<JobId>, order: seq<JobId>, k: nat, n: nat, bound: real,
                   screen: JobId -> Screening, probe: JobId -> Probe, reply: JobId -> Reply)
    requires forall i, k :: 0 <= i < k < |order| ==> order[i] != order[k]
    requires k < |order| && Offered(table, files, was, order[k])
    requires var rows := Offers(table, files, was, order);
             n <= |rows|
             && (forall i :: 0 <= i < n - 1 ==> PassedOver(table[rows[i]], bound, screen(rows[i]), probe(rows[i]), reply(rows[i])))
             && (n == |rows|
                 || (n > 0 && !PassedOver(table[rows[n - 1]], bound, screen(rows[n - 1]), probe(rows[n - 1]), reply(rows[n - 1]))))
    ensures Reached(table, files, was, order, k, bound, screen, probe, reply) <==> order[k] in Offers(table, files, was, order)[..n]
  {
    hide PassedOver, Offered, Offers;
    var rows, front := Offers(table, files, was, order), Offers(table, files, was, order[..k]);
    OfferedAt(table, files, was, order, k);
    OffersEach(table, files, was, order);
    OffersEach(table, files, was, order[..k]);
    var p := |front|;
    assert rows[p] == order[k];
    if p < n {
      assert rows[..n][p] == order[k];
      forall i | 0 <= i < k && Offered(table, files, was, order[i])
        ensures PassedOver(table[order[i]], bound, screen(order[i]), probe(order[i]), reply(order[i]))
      {
        assert order[..k][i] == order[i];
        var q :| 0 <= q < p && front[q] == order[i];
        assert rows[..p][q] == order[i];
      }
    } else {
      forall q | 0 <= q < n ensures rows[q] != order[k] { assert rows[q] != rows[p]; }
      assert rows[..p][n - 1] == rows[n - 1];
      assert rows[n - 1] in order[..k];
      var i :| 0 <= i < k && order[..k][i] == rows[n - 1];
      assert order[i] == rows[n - 1];
    }
  }

  // ----- one turn of a worker -----

  /** A reconciliation puts its row off: it asked for a submission, and a source is missing or the worker refused. */
  predicate ReconcilePutsOff(row: Row, replies: Replies) {
    row.submissions < 3 && (replies.probe.HeadsMissing? || (replies.probe.Go? && Refused(replies.job)))
    && match replies.get
       case Unreachable => false
       case Missing => replies.idle
       case State(x) => x.Restarted() && (x.attempt + 1 == row.attempt || (x.attempt == row.attempt && x.attempt < 3))
  }

  /** The rows and the deferrals at one moment of a pass. */
  datatype Moment = Moment(table: map<JobId, Row>, deferred: set<JobId>)

  function Mine(table: map<JobId, Row>, w: WorkerId): set<JobId> {
    set j | j in table && table[j].state.Submitted? && table[j].worker == w
  }

  /**
   A worker's turn: its one submitted row becomes what the worker's replies make of it, unless it is deferred; a worker
   without one gets a dispatch while the ledger is below 90; two submitted rows stop the turn.
   */
  ghost predicate Turn(before: Moment, now: Moment, files: map<JobId, nat>, order: seq<JobId>, w: WorkerId, bound: real, replies: Replies,
                       screen: JobId -> Screening, probe: JobId -> Probe, reply: JobId -> Reply) {
    var mine := Mine(before.table, w);
    if mine == {} && bound < 90.0 then
      exists admitted ::
        Dispatched(before.table, now.table, files, before.deferred, now.deferred, order, w, bound, screen, probe, reply, admitted)
    else if |mine| != 1 then now == before
    else forall j :: j in mine ==>
      if j in before.deferred then now == before
      else now.table == before.table[j := ReconcileRow(j, before.table[j], replies)]
           && now.deferred == if ReconcilePutsOff(before.table[j], replies) then before.deferred + {j} else before.deferred
  }

  /** The first `n` turns of a pass, each from where the one before it left the tables. */
  ghost predicate Turns(moments: seq<Moment>, n: nat, files: map<JobId, nat>, order: seq<JobId>, workers: seq<WorkerId>, bound: real,
                        replies: WorkerId -> Replies, screen: JobId -> Screening, probe: WorkerId -> JobId -> Probe,
                        reply: WorkerId -> JobId -> Reply) {
    n <= |workers| && |moments| == n + 1
    && forall i :: 0 <= i < n ==>
         Turn(moments[i], moments[i + 1], files, order, workers[i], bound, replies(workers[i]), screen, probe(workers[i]),
              reply(workers[i]))
  }

  lemma OneTurn(moments: seq<Moment>, n: nat, now: Moment, files: map<JobId, nat>, order: seq<JobId>, workers: seq<WorkerId>, bound: real,
                replies: WorkerId -> Replies, screen: JobId -> Screening, probe: WorkerId -> JobId -> Probe,
                reply: WorkerId -> JobId -> Reply)
    requires Turns(moments, n, files, order, workers, bound, replies, screen, probe, reply) && n < |workers|
    requires Turn(moments[n], now, files, order, workers[n], bound, replies(workers[n]), screen, probe(workers[n]), reply(workers[n]))
    ensures Turns(moments + [now], n + 1, files, order, workers, bound, replies, screen, probe, reply)
  {
    hide Turn;
  }

  lemma NoTurn(m: Moment, files: map<JobId, nat>, order: seq<JobId>, w: WorkerId, bound: real, replies: Replies,
               screen: JobId -> Screening, probe: JobId -> Probe, reply: JobId -> Reply)
    ensures |Mine(m.table, w)| > 1 || (Mine(m.table, w) == {} && bound >= 90.0) ==>
              Turn(m, m, files, order, w, bound, replies, screen, probe, reply)
  {
  }

  lemma ReconcileTurn(m: Moment, now: Moment, files: map<JobId, nat>, order: seq<JobId>, w: WorkerId, bound: real, replies: Replies,
                      screen: JobId -> Screening, probe: JobId -> Probe, reply: JobId -> Reply, j: JobId)
    requires Mine(m.table, w) == {j} && j in m.table
    requires now.table == (if j in m.deferred then m.table else m.table[j := ReconcileRow(j, m.table[j], replies)])
    requires now.deferred == if j !in m.deferred && ReconcilePutsOff(m.table[j], replies) then m.deferred + {j} else m.deferred
    ensures Turn(m, now, files, order, w, bound, replies, screen, probe, reply)
  {
    hide ReconcileRow, ReconcilePutsOff, Mine;
    assert |{j}| == 1;
  }

  lemma DispatchTurn(m: Moment, now: Moment, files: map<JobId, nat>, order: seq<JobId>, w: WorkerId, bound: real, replies: Replies,
                     screen: JobId -> Screening, probe: JobId -> Probe, reply: JobId -> Reply, admitted: Option<JobId>)
    requires Mine(m.table, w) == {} && bound < 90.0
    requires Dispatched(m.table, now.table, files, m.deferred, now.deferred, order, w, bound, screen, probe, reply, admitted)
    ensures Turn(m, now, files, order, w, bound, replies, screen, probe, reply)
  {
    hide Dispatched;
  }
}
