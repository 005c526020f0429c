/**
 The controller's steps on one queue row, cut where it commits or waits for a reply.
 `Call` is what the controller is in the middle of; a crash or a timeout forgets it.
 */
module ControllerProtocol {
  import opened Wrappers
  import opened StagingTypes

  datatype Call =
    | Idle
    | Reading(job: JobId, snap: Option<WState>)
    | Sending(job: JobId, msg: Message, priorAttempt: nat, priorCount: nat)
    | Waiting(job: JobId, msg: Message, priorAttempt: nat, priorCount: nat)
    | Answered(job: JobId, msg: Message, priorAttempt: nat, priorCount: nat, status: nat)
    | Archiving(job: JobId, snap: Option<WState>)
    | Archived(job: JobId, snap: Option<WState>)
    | Finishing(job: JobId)

  /** The ValueErrors that stop a reconciliation without touching the row. */
  datatype Fault =
    | MediaAttemptDiffers | StagingFlagDiffers | HourDiffers | ExceedsReservedTransfer
    | OutputIdentityDiffers | ReadbackAccountingDiffers

  datatype Outcome = Outcome(row: Row, call: Call, fault: Option<Fault>)

  function Done(row: Row): Outcome { Outcome(row, Idle, None) }

  function Stop(row: Row, fault: Fault): Outcome { Outcome(row, Idle, Some(fault)) }

  /** Commit the intent of one `/job` POST. `go` is the idle check and all source HEADs. */
  function BeginSubmit(j: JobId, row: Row, w: WorkerId, media: nat, go: bool): Outcome {
    if row.submissions >= MAX_SUBMISSIONS then Done(row.(state := HeldSubmission))
    else if !go then Done(row)
    else Outcome(row.(state := Submitted, worker := w, attempt := media, submissions := row.submissions + 1),
                 Sending(j, JobPost(w, media), row.attempt, row.submissions), None)
  }

  /** A refusal came before admission: give the submission back and restore the attempt. */
  function Refund(row: Row, priorAttempt: nat, priorCount: nat): Row {
    row.(submissions := priorCount, attempt := priorAttempt,
         state := if priorAttempt == 0 then Queued else Submitted)
  }

  function OutputIdentities(outputs: seq<Output>): set<Identity> {
    set i | 0 <= i < |outputs| :: Identity(outputs[i].key, outputs[i].size, outputs[i].sha)
  }

  function VerifiedIdentities(receipts: seq<OutputReceipt>): set<Identity> {
    set i | 0 <= i < |receipts| && receipts[i].verified :: Identity(receipts[i].key, receipts[i].bytes, receipts[i].sha)
  }

  predicate ReadbackAccounted(outputs: seq<Output>, receipts: seq<OutputReceipt>) {
    VerifiedIdentities(receipts) == OutputIdentities(outputs) && |receipts| == |OutputIdentities(outputs)|
  }

  predicate NamedAndProven(outputs: seq<Output>) {
    forall i :: 0 <= i < |outputs| ==> outputs[i].key == ObjectKey(outputs[i].sha) && outputs[i].proven
  }

  predicate ArchiveMatches(j: JobId, row: Row, exports: seq<OutputReceipt>) {
    row.attempt in row.receipts && row.receipts[row.attempt].job == j
    && row.receipts[row.attempt].attempt == row.attempt && row.receipts[row.attempt].exports == exports
  }

  function BeginExport(j: JobId, row: Row, outputs: seq<Output>): Outcome {
    if outputs == [] then Done(row.(state := Held))
    else if Bytes(outputs) > ExportCap(row.sourceBytes) then Stop(row, ExceedsReservedTransfer)
    else if !NamedAndProven(outputs) then Stop(row, OutputIdentityDiffers)
    else if row.exports >= MAX_EXPORTS then Done(row.(state := HeldExport))
    else Outcome(row.(exports := row.exports + 1), Sending(j, ExportPost(row.worker), row.attempt, 0), None)
  }

  function BeginArchive(j: JobId, row: Row, remote: WState): Outcome
    requires remote.Delivered()
  {
    if !ReadbackAccounted(remote.result.outputs, remote.receipts) then Stop(row, ReadbackAccountingDiffers)
    else if ArchiveMatches(j, row, remote.receipts) then Outcome(row, Archived(j, Some(remote)), None)
    else if row.archives >= MAX_ARCHIVES then Done(row.(state := HeldReceipt))
    else Outcome(row.(archives := row.archives + 1), Archiving(j, Some(remote)), None)
  }

  function ReconcileResult(j: JobId, row: Row, remote: WState): Outcome
    requires remote.HasResult() && !remote.Exporting?
  {
    if !remote.result.stagingOnly then Stop(row, StagingFlagDiffers)
    else if !remote.result.hourMatches then Stop(row, HourDiffers)
    else if remote.Delivered() then BeginArchive(j, row, remote)
    else BeginExport(j, row, remote.result.outputs)
  }

  /** `reconcile` from the worker's reply to the next commit. `idle` is the extra `/ready` check after a 404. */
  function Reconcile(j: JobId, row: Row, snap: Option<WState>, idle: bool, go: bool): Outcome {
    match snap
    case None => if idle then BeginSubmit(j, row, row.worker, row.attempt, go) else Done(row)
    case Some(remote) =>
      if remote.attempt != row.attempt then
        if remote.attempt + 1 == row.attempt && remote.Restarted() then
          BeginSubmit(j, row, row.worker, row.attempt, go)
        else Stop(row, MediaAttemptDiffers)
      else if remote.Accepted? || remote.Running? || remote.Exporting? then Done(row)
      else if remote.Failed? then
        if remote.Restarted() && row.attempt < MAX_ATTEMPTS then
          BeginSubmit(j, row, row.worker, row.attempt + 1, go)
        else Done(row.(state := Held))
      else ReconcileResult(j, row, remote)
  }

  /** The archive upload was read back in full: commit its receipt. */
  function KeepReceipt(j: JobId, row: Row, remote: WState): Row
    requires remote.Delivered()
  {
    row.(receipts := row.receipts[row.attempt := Summary(j, row.attempt, remote.receipts)])
  }

  /** Write the results file, then ask for release unless it has already happened. */
  function SaveResult(j: JobId, row: Row, remote: WState): Outcome
    requires row.attempt in row.receipts
  {
    Outcome(row.(saved := Some(row.receipts[row.attempt])),
            if remote.Released? then Finishing(j) else Sending(j, ReleasePost(row.worker), row.attempt, 0), None)
  }

  function Finish(row: Row): Row
    requires row.saved.Some?
  {
    row.(state := StagedVerified, result := row.saved)
  }

  function Settle(j: JobId, row: Row, msg: Message, priorAttempt: nat, priorCount: nat, status: nat): Outcome {
    match msg
    case JobPost(_, _) =>
      if status == 409 || status == 503 || status == 507 then Done(Refund(row, priorAttempt, priorCount)) else Done(row)
    case ExportPost(_) => Done(row)
    case ReleasePost(_) => if status == 200 then Outcome(row, Finishing(j), None) else Done(row)
  }
}
