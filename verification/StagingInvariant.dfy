/** The inductive invariant that ties the controller's row, the worker's directory and the POSTs in flight. */
module StagingInvariant {
  import opened Wrappers
  import opened StagingTypes
  import opened WorkerProtocol
  import opened ControllerProtocol
  import opened StagingSystem

  /** The part of the controller's current call that is about job `j`. */
  function CallOn(call: Call, j: JobId): Call {
    if !call.Idle? && call.job == j then call else Idle
  }

  function JobPosts(js: JobSt): nat {
    var w := js.row.worker;
    js.posts[JobPost(w, 1)] + js.posts[JobPost(w, 2)] + js.posts[JobPost(w, 3)]
  }

  function Exports(js: JobSt): nat { js.posts[ExportPost(js.row.worker)] }

  ghost predicate Untouched(js: JobSt) {
    js.row.attempt == 0 && js.row.submissions == 0 && js.row.exports == 0 && js.row.archives == 0
    && js.row.receipts == map[] && js.posts == multiset{} && js.roots == map[]
    && js.spawned == multiset{} && js.runs == 0 && js.sent == 0
  }

  ghost predicate Bounded(row: Row) {
    1 <= row.attempt <= MAX_ATTEMPTS && row.submissions <= MAX_SUBMISSIONS && row.exports <= MAX_EXPORTS
    && row.archives <= MAX_ARCHIVES
  }

  /** Only the row's worker has a directory or a POST, and no POST is ahead of the row's attempt. */
  ghost predicate OneOwner(js: JobSt) {
    js.roots.Keys <= {js.row.worker}
    && forall m :: m in js.posts ==> m.worker == js.row.worker && (m.JobPost? ==> 1 <= m.attempt <= js.row.attempt)
  }

  /** No worker has admitted the job yet. */
  ghost predicate Absent(js: JobSt) {
    js.row.attempt == 1 && js.row.exports == 0 && js.row.receipts == map[] && js.spawned == multiset{}
    && js.runs == 0 && js.sent == 0 && Exports(js) == 0 && js.posts[ReleasePost(js.row.worker)] == 0
    && !js.row.state.Held? && !js.row.state.StagedVerified?
  }

  /** The directory is at the row's attempt, or one behind with the failure that allows the next. */
  ghost predicate Lockstep(row: Row, s: WState) {
    1 <= s.attempt && (s.attempt == row.attempt || (s.attempt + 1 == row.attempt && s.Restarted()))
  }

  ghost predicate ThreadFits(t: Thread, s: WState, spawned: multiset<nat>, store: map<Key, Object>) {
    match t
    case ExecStart(b) => s == Accepted(b)
    case ExecSpawn(b) => s == Running(b) && spawned[b] == 0
    case ExecWait(b) => s == Running(b)
    case Recovering(b) => s.Busy() && s.attempt == b
    case Copying(i, put) =>
      s.Exporting? && i <= |s.result.outputs| && (put ==> i < |s.result.outputs|) && InStore(s.result.outputs[..i], store)
    case Ending => !s.Busy() && !s.Exporting?
  }

  ghost predicate Execution(root: Root, spawned: multiset<nat>) {
    var s := root.state;
    (forall b :: spawned[b] <= 1)
    && (forall b :: b in spawned ==> 1 <= b <= s.attempt)
    && (s.Accepted? ==> s.attempt !in spawned)
    && (forall b :: b in root.live ==> b == s.attempt && b in spawned && b !in root.exits && s.Busy() && !s.Accepted?)
    && (forall b :: b in root.exits ==> b in spawned && b in root.disk)
  }

  ghost predicate Threads(root: Root, spawned: multiset<nat>, store: map<Key, Object>) {
    (forall t, u :: t in root.threads && u in root.threads ==> t == u)
    && forall t :: t in root.threads ==> ThreadFits(t, root.state, spawned, store)
  }

  ghost predicate Produced(row: Row, root: Root) {
    root.state.HasResult() ==>
      root.state.attempt == row.attempt && root.state.attempt in root.exits
      && root.exits[root.state.attempt].result == Some(root.state.result)
  }

  ghost predicate Exportable(row: Row, result: StageResult) {
    result.stagingOnly && result.hourMatches && result.outputs != []
      && Bytes(result.outputs) <= ExportCap(row.sourceBytes) && NamedAndProven(result.outputs)
  }

  /** `runs` whole exports cover the bytes PUT, with what the current one has still to PUT kept free. */
  ghost predicate SentCovered(js: JobSt, root: Root)
    requires root.state.HasResult()
  {
    var outputs := root.state.result.outputs;
    js.sent <= Times(js.runs, Bytes(outputs))
    && forall t :: t in root.threads && t.Copying? ==> js.sent + Rest(outputs, t) <= Times(js.runs, Bytes(outputs))
  }

  /** What an export thread has still to PUT. */
  ghost function Rest(outputs: seq<Output>, t: Thread): int
    requires t.Copying?
  {
    var n := t.next + Bit(t.put);
    if n <= |outputs| then Bytes(outputs) - Bytes(outputs[..n]) else 0
  }

  /** `n * size`, by addition. */
  function Times(n: nat, size: nat): nat { if n == 0 then 0 else Times(n - 1, size) + size }

  function Bit(b: bool): nat { if b then 1 else 0 }

  function PendingExport(call: Call): nat {
    if call.Sending? && call.msg.ExportPost? then 1 else 0
  }

  ghost predicate ExportAccounting(js: JobSt, root: Root, call: Call) {
    var s := root.state;
    js.runs + Exports(js) + PendingExport(call) <= js.row.exports
    && (s.Exporting? || s.ExportFailed? || s.Delivered() ==> js.runs > 0)
    && (js.row.exports > 0 ==> s.HasResult() && Exportable(js.row, s.result))
    && (js.runs > 0 ==> s.HasResult() && UniqueKeys(s.result.outputs))
    && (js.runs == 0 ==> js.sent == 0)
    && (s.HasResult() ==> SentCovered(js, root))
  }

  /** A delivered job is in the store in full; a receipt names it; release needs the receipt. */
  ghost predicate Delivery(j: JobId, js: JobSt, root: Root, store: map<Key, Object>, docs: set<Doc>) {
    var s := root.state;
    (s.Delivered() ==> s.receipts == ReceiptsOf(s.result.outputs) && InStore(s.result.outputs, store))
    && (forall b :: b in js.row.receipts ==>
          b == js.row.attempt && s.Delivered() && js.row.receipts[b] == Summary(j, b, s.receipts)
          && Doc(j, b, s.result, s.receipts) in docs)
    && (js.posts[ReleasePost(js.row.worker)] > 0 || s.Released? ==> js.row.attempt in js.row.receipts)
  }

  /** Files leave a worker's disk only once their attempt's receipt is durable. */
  ghost predicate MediaKept(row: Row, root: Root) {
    forall b :: b in root.exits ==> b in root.disk && (b in row.receipts || root.disk[b] == root.exits[b].files)
  }

  ghost predicate Present(j: JobId, js: JobSt, root: Root, call: Call, store: map<Key, Object>, docs: set<Doc>) {
    && Lockstep(js.row, root.state)
    && Execution(root, js.spawned)
    && Threads(root, js.spawned, store)
    && Produced(js.row, root)
    && ExportAccounting(js, root, call)
    && Delivery(j, js, root, store, docs)
    && MediaKept(js.row, root)
    && (js.row.state.Held? ==> js.row.exports == 0)
    && (js.row.state.StagedVerified? ==>
         root.state.Released? && js.row.attempt in js.row.receipts
         && js.row.result == Some(js.row.receipts[js.row.attempt]) && js.row.saved == js.row.result)
  }

  /** What the controller read is still true enough: results and receipts never change, release is final. */
  ghost predicate SnapFits(js: JobSt, snap: Option<WState>) {
    snap.Some? ==>
      var x := snap.value;
      js.row.worker in js.roots &&
      var s := js.roots[js.row.worker].state;
      Lockstep(js.row, x)
      && (x.Restarted() && x.attempt == js.row.attempt ==> s == x)
      && (x.Failed? && x.attempt == js.row.attempt ==> js.row.exports == 0)
      && (x.HasResult() ==> s.HasResult() && s.result == x.result)
      && (x.Delivered() ==> s.Delivered() && s.receipts == x.receipts)
      && (x.Released? ==> s.Released?)
  }

  /** The row's attempt has been intended but no worker can have it, apart from `flying` POSTs. */
  ghost predicate Fresh(js: JobSt, prior: nat, priorCount: nat, flying: nat) {
    var w := js.row.worker;
    prior + 1 == js.row.attempt && js.posts[JobPost(w, js.row.attempt)] == flying
    && if prior == 0 then
         js.roots == map[] && priorCount == 0 && js.row.archives == 0
         && js.posts == (if flying == 0 then multiset{} else multiset{JobPost(w, 1)})
       else w in js.roots && js.roots[w].state == Failed(prior, WorkerRestarted)
  }

  ghost predicate JobCall(js: JobSt, prior: nat, priorCount: nat, flying: nat) {
    priorCount + 1 == js.row.submissions && flying <= 1
    && (prior == js.row.attempt || Fresh(js, prior, priorCount, flying))
  }

  ghost predicate CallFits(js: JobSt, call: Call) {
    var w := js.row.worker;
    match call
    case Idle => true
    case Reading(_, snap) => SnapFits(js, snap)
    case Archiving(_, snap) =>
      snap.Some? && snap.value.Delivered() && SnapFits(js, snap) && js.row.attempt !in js.row.receipts
    case Archived(_, snap) =>
      snap.Some? && snap.value.Delivered() && SnapFits(js, snap) && js.row.attempt in js.row.receipts
    case Finishing(_) =>
      w in js.roots && js.roots[w].state.Released? && js.row.attempt in js.row.receipts
      && js.row.saved == Some(js.row.receipts[js.row.attempt])
    case Sending(_, msg, prior, priorCount) =>
      msg.worker == w && (match msg
        case JobPost(_, b) => b == js.row.attempt && JobCall(js, prior, priorCount, 0) && JobPosts(js) + 1 <= js.row.submissions
        case ExportPost(_) => w in js.roots
        case ReleasePost(_) =>
          js.row.attempt in js.row.receipts && js.row.saved == Some(js.row.receipts[js.row.attempt]) && w in js.roots)
    case Waiting(_, msg, prior, priorCount) =>
      msg.worker == w && msg in js.posts && (match msg
        case JobPost(_, b) => b == js.row.attempt && JobCall(js, prior, priorCount, 1)
        case ExportPost(_) => w in js.roots
        case ReleasePost(_) =>
          js.row.attempt in js.row.receipts && js.row.saved == Some(js.row.receipts[js.row.attempt]) && w in js.roots)
    case Answered(_, msg, prior, priorCount, status) =>
      msg.worker == w && (match msg
        case JobPost(_, b) =>
          b == js.row.attempt
          && (Refusal(status) ==> JobCall(js, prior, priorCount, 0) && JobPosts(js) + 1 <= js.row.submissions)
        case ExportPost(_) => w in js.roots
        case ReleasePost(_) =>
          js.row.attempt in js.row.receipts && js.row.saved == Some(js.row.receipts[js.row.attempt]) && w in js.roots
          && (status == 200 ==> js.roots[w].state.Released?))
  }

  /** The invariant of one job. */
  ghost predicate JobInv(j: JobId, js: JobSt, call: Call, store: map<Key, Object>, docs: set<Doc>) {
    if js.row.state.Queued? || js.row.state.HeldStructure? then Untouched(js) && call.Idle?
    else
      Bounded(js.row) && OneOwner(js) && JobPosts(js) <= js.row.submissions
      && (if js.row.worker in js.roots then Present(j, js, js.roots[js.row.worker], call, store, docs) else Absent(js))
      && (!call.Idle? ==> js.row.state.Submitted? && CallFits(js, call))
  }

  /** A directory that keeps its job in ACTIVE while the worker is up. */
  ghost predicate Occupying(root: Root) {
    root.state.Busy() || root.state.Exporting? || root.threads != {}
  }

  ghost predicate Occupies(s: Sys, w: WorkerId, j: JobId)
    requires j in s.jobs
  {
    w in s.jobs[j].roots && Occupying(s.jobs[j].roots[w])
  }

  /** ACTIVE holds at most one job, and every job that has a thread or may have a runner is that one. */
  ghost predicate WorkerInv(s: Sys, w: WorkerId)
    requires w in s.workers
  {
    var worker := s.workers[w];
    (forall i, j :: i in worker.active && j in worker.active ==> i == j)
    && (worker.up ==> forall j :: j in s.jobs && Occupies(s, w, j) ==> j in worker.active)
    && (!worker.up ==>
         worker.active == {}
         && (forall j :: j in s.jobs && w in s.jobs[j].roots ==> s.jobs[j].roots[w].threads == {})
         && (forall i, j :: i in s.jobs && j in s.jobs && Occupies(s, w, i) && Occupies(s, w, j) ==> i == j))
  }

  /** At most one submitted row names a worker. */
  ghost predicate OneSubmitted(s: Sys) {
    forall i, j | i in s.jobs && j in s.jobs ::
      s.jobs[i].row.state.Submitted? && s.jobs[j].row.state.Submitted? && s.jobs[i].row.worker == s.jobs[j].row.worker
      ==> i == j
  }

  ghost predicate OwnersExist(s: Sys) {
    forall j, w :: j in s.jobs && w in s.jobs[j].roots ==> w in s.workers
  }

  ghost predicate Inv(s: Sys) {
    (forall j :: j in s.jobs ==> JobInv(j, s.jobs[j], CallOn(s.call, j), s.store, s.docs))
    && (forall w :: w in s.workers ==> WorkerInv(s, w))
    && OneSubmitted(s)
    && OwnersExist(s)
    && (!s.call.Idle? ==> s.call.job in s.jobs)
  }

  // ----- one job, one step -----

  lemma {:induction false} PrefixBytes(outputs: seq<Output>, n: nat)
    requires n <= |outputs|
    ensures Bytes(outputs[..n]) <= Bytes(outputs)
    decreases |outputs|
  {
    if n < |outputs| {
      var shorter := outputs[..|outputs| - 1];
      PrefixBytes(shorter, n);
      assert shorter[..n] == outputs[..n];
    } else {
      assert outputs[..n] == outputs;
    }
  }

  lemma NextPrefix(outputs: seq<Output>, i: nat)
    requires i < |outputs|
    ensures Bytes(outputs[..i + 1]) == Bytes(outputs[..i]) + outputs[i].size
  {
    assert outputs[..i + 1][..i] == outputs[..i];
  }

  lemma StoreGrows(j: JobId, js: JobSt, call: Call, store: map<Key, Object>, docs: set<Doc>,
                   store': map<Key, Object>, docs': set<Doc>)
    requires JobInv(j, js, call, store, docs) && Extends(store, store') && docs <= docs'
    ensures JobInv(j, js, call, store', docs')
  {
    if js.row.worker in js.roots && !js.row.state.Queued? && !js.row.state.HeldStructure? {
      var root := js.roots[js.row.worker];
      assert Threads(root, js.spawned, store');
    }
  }
}
