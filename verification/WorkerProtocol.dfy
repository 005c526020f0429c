/**
 The atomic steps of a staging worker on one job directory and the shared ACTIVE set:
 the POST handlers, the execute, recover and export threads, a crash and a restart.
 */
module WorkerProtocol {
  import opened Wrappers
  import opened StagingTypes

  /** What the unlocked part of `/job` finds: build marker, work identity and scope, scratch space. */
  datatype Gate = Unbuilt | BadWork | NoSpace | Open

  /** HTTP status, the job directory after the call, and ACTIVE after the call. */
  datatype Answer = Answer(status: nat, root: Option<Root>, active: set<JobId>)

  /** The three statuses `/job` gives only before admission. */
  predicate Refusal(status: nat) { status == 409 || status == 503 || status == 507 }

  function Admit(root: Option<Root>, attempt: nat): Root {
    match root
    case None => Root(Accepted(attempt), {}, map[], map[], {ExecStart(attempt)})
    case Some(dir) => dir.(state := Accepted(attempt), threads := dir.threads + {ExecStart(attempt)})
  }

  function PostJob(root: Option<Root>, active: set<JobId>, j: JobId, attempt: nat, gate: Gate): Answer {
    if gate.Unbuilt? then Answer(503, root, active)
    else if gate.BadWork? then Answer(400, root, active)
    else if gate.NoSpace? then Answer(507, root, active)
    else if !(1 <= attempt <= MAX_ATTEMPTS) then Answer(400, root, active)
    else if root.Some? && (!root.value.state.Failed? || attempt != root.value.state.attempt + 1) then Answer(200, root, active)
    else if root.None? && attempt != 1 then Answer(400, root, active)
    else if active != {} then Answer(409, root, active)
    else Answer(202, Some(Admit(root, attempt)), active + {j})
  }

  function PostExport(root: Option<Root>, active: set<JobId>, j: JobId): Answer {
    if root.None? then Answer(500, root, active)
    else
      var s := root.value.state;
      if s.Exporting? || s.Exported? then Answer(200, root, active)
      else if !(s.Staged? || s.ExportFailed?) || active != {} then Answer(409, root, active)
      else if !UniqueKeys(s.result.outputs) then Answer(400, root, active)
      else Answer(202, Some(root.value.(state := Exporting(s.attempt, s.result),
                                        threads := root.value.threads + {Copying(0, false)})), active + {j})
  }

  /** Outputs before the first one whose path is refused. */
  function Removable(outputs: seq<Output>): (n: nat)
    ensures n <= |outputs|
    ensures forall i :: 0 <= i < n ==> outputs[i].key.ObjectKey?
    ensures n < |outputs| ==> !outputs[n].key.ObjectKey?
  {
    if outputs == [] || !outputs[0].key.ObjectKey? then 0 else 1 + Removable(outputs[1..])
  }

  function KeysOf(outputs: seq<Output>): set<Key> { set o | o in outputs :: o.key }

  function Unlinked(root: Root, outputs: seq<Output>): Root {
    var a := root.state.attempt;
    if a in root.disk then root.(disk := root.disk[a := root.disk[a] - KeysOf(outputs)]) else root
  }

  predicate ProofComplete(s: WState)
    requires s.Delivered()
  {
    |s.result.outputs| == |s.receipts| && forall i :: 0 <= i < |s.receipts| ==> s.receipts[i].verified
  }

  function PostRelease(root: Option<Root>, active: set<JobId>): Answer {
    if root.None? then Answer(500, root, active)
    else
      var s := root.value.state;
      if s.Released? then Answer(200, root, active)
      else if !s.Exported? || active != {} then Answer(409, root, active)
      else if !ProofComplete(s) then Answer(409, root, active)
      else
        var n := Removable(s.result.outputs);
        var gone := Unlinked(root.value, s.result.outputs[..n]);
        if n < |s.result.outputs| then Answer(409, Some(gone), active)
        else Answer(200, Some(gone.(state := Released(s.attempt, s.result, s.receipts))), active)
  }

  function Swap(root: Root, before: Thread, after: Thread): Root {
    root.(threads := root.threads - {before} + {after})
  }

  // ----- the execute thread -----

  function ExecBegin(root: Root, a: nat): Root {
    Swap(root, ExecStart(a), ExecSpawn(a)).(state := Running(a))
  }

  function ExecLaunch(root: Root, a: nat): Root {
    Swap(root, ExecSpawn(a), ExecWait(a)).(live := root.live + {a})
  }

  function ExecBroken(root: Root, a: nat): Root {
    Swap(root, ExecSpawn(a), Ending).(state := Failed(a, ExecutionFailed))
  }

  function RunnerEnds(root: Root, a: nat, exit: Exit): Root {
    root.(live := root.live - {a}, exits := root.exits[a := exit], disk := root.disk[a := exit.files])
  }

  function ExecFinish(root: Root, a: nat): Root
    requires a in root.exits
  {
    var exit := root.exits[a];
    Swap(root, ExecWait(a), Ending).(state :=
      if !exit.clean then Failed(a, MediaFailed)
      else if exit.result.None? then Failed(a, ExecutionFailed)
      else Staged(a, exit.result.value))
  }

  // ----- the recover thread, started for every busy job after a restart -----

  function RecoverFinish(root: Root, a: nat): Root {
    if a in root.exits && root.exits[a].result.Some? then
      var result := root.exits[a].result.value;
      if result.stagingOnly && result.hourMatches then Swap(root, Recovering(a), Ending).(state := Staged(a, result))
      else RecoverHold(root, a)
    else Swap(root, Recovering(a), Ending).(state := Failed(a, WorkerRestarted))
  }

  /** The thread ends but the job stays in ACTIVE, so nothing new is admitted. */
  function RecoverHold(root: Root, a: nat): Root {
    root.(threads := root.threads - {Recovering(a)}, state := Failed(a, RecoveryHold))
  }

  // ----- the export thread -----

  function CopyPut(root: Root, i: nat): Root { Swap(root, Copying(i, false), Copying(i, true)) }

  function CopyVerified(root: Root, i: nat): Root { Swap(root, Copying(i, true), Copying(i + 1, false)) }

  function CopyFailed(root: Root, i: nat, put: bool): Root
    requires root.state.HasResult()
  {
    Swap(root, Copying(i, put), Ending).(state := ExportFailed(root.state.attempt, root.state.result))
  }

  function CopyFinished(root: Root, i: nat): Root
    requires root.state.HasResult()
  {
    Swap(root, Copying(i, false), Ending).(
      state := Exported(root.state.attempt, root.state.result, ReceiptsOf(root.state.result.outputs)))
  }

  function Leave(root: Root): Root { root.(threads := root.threads - {Ending}) }

  function CrashRoot(root: Root): Root { root.(threads := {}) }

  function RestartRoot(root: Root): Root {
    if root.state.Busy() then root.(threads := {Recovering(root.state.attempt)})
    else if root.state.Exporting? then root.(state := ExportFailed(root.state.attempt, root.state.result))
    else root
  }
}
