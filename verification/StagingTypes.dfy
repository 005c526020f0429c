/**
 The values that cross between the staging controller, its workers and the object store:
 queue rows, the state file a worker keeps per job, messages, results and receipts.
 A digest is an abstract injective identity, so equal digests mean equal content.
 */
module StagingTypes {
  import opened Wrappers

  type JobId = nat
  type WorkerId = nat
  type Digest = nat

  const GIB := 1024 * 1024 * 1024
  const MIB := 1024 * 1024
  const MAX_SUBMISSIONS := 3
  const MAX_ATTEMPTS := 3
  const MAX_EXPORTS := 3
  const MAX_ARCHIVES := 3

  /** `ObjectKey(sha)` is the content-addressed name of the object with that digest. */
  datatype Key = ObjectKey(sha: Digest) | OtherKey(name: nat)

  datatype Object = Object(size: nat, sha: Digest)

  /** One manifest output. `proven` is the strict full decode proof for exactly this size and digest. */
  datatype Output = Output(key: Key, size: nat, sha: Digest, proven: bool)

  /** `stagingOnly` is `ready_to_publish is False`; `hourMatches` compares the hour with the work's. */
  datatype StageResult = StageResult(stagingOnly: bool, hourMatches: bool, outputs: seq<Output>)

  datatype OutputReceipt = OutputReceipt(key: Key, bytes: nat, sha: Digest, verified: bool)

  datatype Identity = Identity(key: Key, size: nat, sha: Digest)

  function Bytes(outputs: seq<Output>): nat {
    if outputs == [] then 0 else Bytes(outputs[..|outputs| - 1]) + outputs[|outputs| - 1].size
  }

  function ReceiptBytes(receipts: seq<OutputReceipt>): nat {
    if receipts == [] then 0 else ReceiptBytes(receipts[..|receipts| - 1]) + receipts[|receipts| - 1].bytes
  }

  predicate UniqueKeys(outputs: seq<Output>) {
    forall i, k :: 0 <= i < k < |outputs| ==> outputs[i].key != outputs[k].key
  }

  /** What a job may put in one export: twice its source plus 128 MiB. */
  function ExportCap(sourceBytes: nat): nat {
    2 * sourceBytes + 128 * MIB
  }

  datatype Failure = MediaFailed | ExecutionFailed | WorkerRestarted | RecoveryHold

  /** The content of a worker's `state.json` for one job. */
  datatype WState =
    | Accepted(attempt: nat)
    | Running(attempt: nat)
    | Failed(attempt: nat, failure: Failure)
    | Staged(attempt: nat, result: StageResult)
    | Exporting(attempt: nat, result: StageResult)
    | ExportFailed(attempt: nat, result: StageResult)
    | Exported(attempt: nat, result: StageResult, receipts: seq<OutputReceipt>)
    | Released(attempt: nat, result: StageResult, receipts: seq<OutputReceipt>)
  {
    predicate HasResult() { !Accepted? && !Running? && !Failed? }

    /** The runner of this job may be alive, so a restarted worker must take the job up again. */
    predicate Busy() { Accepted? || Running? || (Failed? && failure.RecoveryHold?) }

    predicate Delivered() { Exported? || Released? }

    predicate Restarted() { Failed? && failure.WorkerRestarted? }
  }

  /** How a media runner ended: exit code zero or not, its result file, and the output files it left, by content. */
  datatype Exit = Exit(clean: bool, result: Option<StageResult>, files: map<Key, Object>)

  /** A worker thread for one job; `Ending` has written its last state and only has to leave ACTIVE. */
  datatype Thread =
    | ExecStart(attempt: nat)
    | ExecSpawn(attempt: nat)
    | ExecWait(attempt: nat)
    | Recovering(attempt: nat)
    | Copying(next: nat, put: bool)
    | Ending

  /** A job directory on a worker. Everything is durable except `threads`; `live` are running runners. */
  datatype Root = Root(state: WState, live: set<nat>, exits: map<nat, Exit>, disk: map<nat, map<Key, Object>>,
                       threads: set<Thread>)

  datatype RowState =
    | Queued | Submitted | Held | HeldStructure | HeldSubmission | HeldExport | HeldReceipt | StagedVerified

  /** The small archive receipt the controller keeps. `exports` stands for its digest. */
  datatype Receipt = Receipt(job: JobId, attempt: nat, exports: seq<OutputReceipt>, exportBytes: nat,
                             outputCount: nat)

  /** A queue row joined with its attempt counters, archive receipts and results file. */
  datatype Row = Row(state: RowState, worker: WorkerId, attempt: nat, sourceBytes: nat,
                     submissions: nat, exports: nat, archives: nat,
                     receipts: map<nat, Receipt>, saved: Option<Receipt>, result: Option<Receipt>)
  {
    predicate Terminal() { !state.Queued? && !state.Submitted? }
  }

  /** A POST in flight about one job. */
  datatype Message =
    | JobPost(worker: WorkerId, attempt: nat)
    | ExportPost(worker: WorkerId)
    | ReleasePost(worker: WorkerId)

  /** The full receipt document uploaded to the store before any release. */
  datatype Doc = Doc(job: JobId, attempt: nat, result: StageResult, exports: seq<OutputReceipt>)

  function Summary(job: JobId, attempt: nat, exports: seq<OutputReceipt>): Receipt {
    Receipt(job, attempt, exports, ReceiptBytes(exports), |exports|)
  }

  function ReceiptsOf(outputs: seq<Output>): (r: seq<OutputReceipt>)
    ensures |r| == |outputs|
    ensures forall i :: 0 <= i < |r| ==> r[i] == OutputReceipt(outputs[i].key, outputs[i].size, outputs[i].sha, true)
  {
    seq(|outputs|, i requires 0 <= i < |outputs| => OutputReceipt(outputs[i].key, outputs[i].size, outputs[i].sha, true))
  }

  /** The file under the output's key has exactly its size and digest. */
  predicate OnDisk(files: map<Key, Object>, o: Output) {
    o.key in files && files[o.key] == Object(o.size, o.sha)
  }

  /** Every output is in the store under its key with exactly its size and digest. */
  predicate InStore(outputs: seq<Output>, store: map<Key, Object>) {
    forall i :: 0 <= i < |outputs| ==> outputs[i].key in store && store[outputs[i].key] == Object(outputs[i].size, outputs[i].sha)
  }

  predicate Extends<K, V(==)>(before: map<K, V>, after: map<K, V>) {
    forall k :: k in before ==> k in after && after[k] == before[k]
  }
}
