/**
 The whole protocol as a step system: the controller's tables and current call, every worker's
 durable job directories and volatile state, POSTs in flight, and the create-only object store.
 A POST may be answered late or never; a controller crash or timeout is `GiveUp`.
 */
module StagingSystem {
  import opened Wrappers
  import opened StagingTypes
  import opened WorkerProtocol
  import opened ControllerProtocol

  /**
   Everything about one job. `roots` has the job's directory on each worker that has one.
   History: `spawned` counts runner starts per attempt, `runs` export runs begun, `sent` bytes they PUT.
   */
  datatype JobSt = JobSt(row: Row, posts: multiset<Message>, roots: map<WorkerId, Root>,
                         spawned: multiset<nat>, runs: nat, sent: nat)

  datatype Worker = Worker(up: bool, active: set<JobId>)

  datatype Sys = Sys(jobs: map<JobId, JobSt>, workers: map<WorkerId, Worker>,
                     store: map<Key, Object>, docs: set<Doc>, call: Call)

  function RootOn(js: JobSt, w: WorkerId): Option<Root> {
    if w in js.roots then Some(js.roots[w]) else None
  }

  function SetRoot(js: JobSt, w: WorkerId, root: Option<Root>): JobSt {
    if root.Some? then js.(roots := js.roots[w := root.value]) else js
  }

  function StateOn(js: JobSt, w: WorkerId): Option<WState> {
    if w in js.roots then Some(js.roots[w].state) else None
  }

  function Handle(j: JobId, js: JobSt, active: set<JobId>, msg: Message, gate: Gate): Answer {
    var root := RootOn(js, msg.worker);
    match msg
    case JobPost(_, a) => PostJob(root, active, j, a, gate)
    case ExportPost(_) => PostExport(root, active, j)
    case ReleasePost(_) => PostRelease(root, active)
  }

  /** The handler ran: the POST is consumed and the directory is as the handler left it. */
  function Handled(js: JobSt, msg: Message, answer: Answer): JobSt {
    SetRoot(js, msg.worker, answer.root).(
      posts := js.posts - multiset{msg},
      runs := js.runs + (if msg.ExportPost? && answer.status == 202 then 1 else 0))
  }

  /** One thread or runner step of a job on one worker. */
  datatype WorkStep =
    | Begin(attempt: nat)
    | Launch(attempt: nat)
    | Break(attempt: nat)
    | RunnerExits(attempt: nat, exit: Exit)
    | FinishExec(attempt: nat)
    | FinishRecover(attempt: nat)
    | HoldRecover(attempt: nat)
    | Put(next: nat)
    | Verify(next: nat)
    | FailCopy(next: nat, put: bool)
    | FinishCopy(next: nat)
    | LeaveActive

  /** When a worker can take the step. A runner may end while its worker is down. */
  predicate Enabled(root: Root, step: WorkStep, store: map<Key, Object>) {
    match step
    case Begin(a) => ExecStart(a) in root.threads
    case Launch(a) => ExecSpawn(a) in root.threads
    case Break(a) => ExecSpawn(a) in root.threads
    case RunnerExits(a, _) => a in root.live
    case FinishExec(a) => ExecWait(a) in root.threads && a !in root.live && a in root.exits
    case FinishRecover(a) => Recovering(a) in root.threads && a !in root.live
    case HoldRecover(a) => Recovering(a) in root.threads
    case Put(i) =>
      Copying(i, false) in root.threads && root.state.HasResult() && i < |root.state.result.outputs|
      && root.state.attempt in root.disk && OnDisk(root.disk[root.state.attempt], root.state.result.outputs[i])
    case Verify(i) =>
      Copying(i, true) in root.threads && root.state.HasResult() && i < |root.state.result.outputs|
      && InStore([root.state.result.outputs[i]], store)
    case FailCopy(i, put) => Copying(i, put) in root.threads && root.state.HasResult()
    case FinishCopy(i) =>
      Copying(i, false) in root.threads && root.state.HasResult() && i == |root.state.result.outputs| > 0
    case LeaveActive => Ending in root.threads
  }

  function Worked(root: Root, step: WorkStep, store: map<Key, Object>): Root
    requires Enabled(root, step, store)
  {
    match step
    case Begin(a) => ExecBegin(root, a)
    case Launch(a) => ExecLaunch(root, a)
    case Break(a) => ExecBroken(root, a)
    case RunnerExits(a, exit) => RunnerEnds(root, a, exit)
    case FinishExec(a) => ExecFinish(root, a)
    case FinishRecover(a) => RecoverFinish(root, a)
    case HoldRecover(a) => RecoverHold(root, a)
    case Put(i) => CopyPut(root, i)
    case Verify(i) => CopyVerified(root, i)
    case FailCopy(i, put) => CopyFailed(root, i, put)
    case FinishCopy(i) => CopyFinished(root, i)
    case LeaveActive => Leave(root)
  }

  function Work(js: JobSt, w: WorkerId, step: WorkStep, store: map<Key, Object>): JobSt
    requires w in js.roots && Enabled(js.roots[w], step, store)
  {
    var root := js.roots[w];
    js.(roots := js.roots[w := Worked(root, step, store)],
        spawned := js.spawned + (if step.Launch? then multiset{step.attempt} else multiset{}),
        sent := js.sent + (if step.Put? then root.state.result.outputs[step.next].size else 0))
  }

  /** `/release` was cut by a crash after removing some of the files it would remove. */
  function ReleaseCut(js: JobSt, w: WorkerId, removed: nat): JobSt
    requires w in js.roots && js.roots[w].state.Exported? && removed <= |js.roots[w].state.result.outputs|
  {
    js.(posts := js.posts - multiset{ReleasePost(w)},
        roots := js.roots[w := Unlinked(js.roots[w], js.roots[w].state.result.outputs[..removed])])
  }

  datatype Step =
    | Dispatch(job: JobId, worker: WorkerId, go: bool)
    | HoldForStructure(job: JobId)
    | Get(job: JobId)
    | ReconcileRow(idle: bool, go: bool)
    | Send
    | GiveUp
    | SettleReply
    | ArchiveConfirmed
    | SaveResultFile
    | FinishRow
    | Deliver(job: JobId, msg: Message, awaited: bool, gate: Gate)
    | CutRelease(job: JobId, worker: WorkerId, removed: nat)
    | WorkOn(job: JobId, worker: WorkerId, work: WorkStep)
    | StorePut(key: Key, content: Object)
    | StoreDoc(doc: Doc)
    | Crash(worker: WorkerId)
    | Restart(worker: WorkerId)

  predicate NoneSubmitted(s: Sys, w: WorkerId) {
    forall j :: j in s.jobs && s.jobs[j].row.state.Submitted? ==> s.jobs[j].row.worker != w
  }

  function WithRow(s: Sys, j: JobId, row: Row, call: Call): Sys
    requires j in s.jobs
  {
    s.(jobs := s.jobs[j := s.jobs[j].(row := row)], call := call)
  }

  function CrashJob(js: JobSt, w: WorkerId): JobSt {
    if w in js.roots then js.(roots := js.roots[w := CrashRoot(js.roots[w])]) else js
  }

  function RestartJob(js: JobSt, w: WorkerId): JobSt {
    if w in js.roots then js.(roots := js.roots[w := RestartRoot(js.roots[w])]) else js
  }

  function BusyJobs(s: Sys, w: WorkerId): set<JobId> {
    set j | j in s.jobs && w in s.jobs[j].roots && s.jobs[j].roots[w].state.Busy()
  }

  /** The awaited POST is not the one a late delivery takes. */
  predicate Deliverable(s: Sys, j: JobId, msg: Message, awaited: bool) {
    j in s.jobs && msg in s.jobs[j].posts && msg.worker in s.workers && s.workers[msg.worker].up
    && if awaited then s.call.Waiting? && s.call.job == j && s.call.msg == msg
       else s.call.Waiting? && s.call.job == j && s.call.msg == msg ==> s.jobs[j].posts[msg] > 1
  }

  predicate Allowed(s: Sys, step: Step) {
    match step
    case Dispatch(j, w, _) =>
      s.call.Idle? && j in s.jobs && w in s.workers && s.jobs[j].row.state.Queued? && s.jobs[j].row.attempt == 0
      && NoneSubmitted(s, w)
    case HoldForStructure(j) => s.call.Idle? && j in s.jobs && s.jobs[j].row.state.Queued?
    case Get(j) =>
      s.call.Idle? && j in s.jobs && s.jobs[j].row.state.Submitted? && s.jobs[j].row.worker in s.workers
      && s.workers[s.jobs[j].row.worker].up
    case ReconcileRow(_, _) => s.call.Reading? && s.call.job in s.jobs
    case Send => s.call.Sending? && s.call.job in s.jobs
    case GiveUp => true
    case SettleReply => s.call.Answered? && s.call.job in s.jobs
    case ArchiveConfirmed =>
      s.call.Archiving? && s.call.job in s.jobs && s.call.snap.Some? && s.call.snap.value.Delivered()
    case SaveResultFile =>
      s.call.Archived? && s.call.job in s.jobs && s.call.snap.Some? && s.jobs[s.call.job].row.attempt in s.jobs[s.call.job].row.receipts
    case FinishRow => s.call.Finishing? && s.call.job in s.jobs && s.jobs[s.call.job].row.saved.Some?
    case Deliver(j, msg, awaited, _) => Deliverable(s, j, msg, awaited)
    case CutRelease(j, w, removed) =>
      Deliverable(s, j, ReleasePost(w), false) && w in s.jobs[j].roots && s.jobs[j].roots[w].state.Exported?
      && s.workers[w].active == {} && removed <= Removable(s.jobs[j].roots[w].state.result.outputs)
    case WorkOn(j, w, work) =>
      j in s.jobs && w in s.workers && w in s.jobs[j].roots && Enabled(s.jobs[j].roots[w], work, s.store)
    case StorePut(key, _) => key !in s.store
    case StoreDoc(_) => true
    case Crash(w) => w in s.workers && s.workers[w].up
    case Restart(w) => w in s.workers && !s.workers[w].up
  }

  function DeliverTo(s: Sys, j: JobId, msg: Message, awaited: bool, gate: Gate): Sys
    requires Deliverable(s, j, msg, awaited)
  {
    var answer := Handle(j, s.jobs[j], s.workers[msg.worker].active, msg, gate);
    s.(jobs := s.jobs[j := Handled(s.jobs[j], msg, answer)],
       workers := s.workers[msg.worker := s.workers[msg.worker].(active := answer.active)],
       call := if awaited then Answered(j, msg, s.call.priorAttempt, s.call.priorCount, answer.status) else s.call)
  }

  function CrashAll(s: Sys, w: WorkerId): Sys
    requires w in s.workers
  {
    s.(workers := s.workers[w := Worker(false, {})], jobs := map j | j in s.jobs :: CrashJob(s.jobs[j], w))
  }

  function Apply(s: Sys, step: Step): Sys
    requires Allowed(s, step)
  {
    match step
    case Dispatch(j, w, go) =>
      var o := BeginSubmit(j, s.jobs[j].row, w, 1, go);
      WithRow(s, j, o.row, o.call)
    case HoldForStructure(j) => WithRow(s, j, s.jobs[j].row.(state := HeldStructure), Idle)
    case Get(j) => s.(call := Reading(j, StateOn(s.jobs[j], s.jobs[j].row.worker)))
    case ReconcileRow(idle, go) =>
      var o := Reconcile(s.call.job, s.jobs[s.call.job].row, s.call.snap, idle, go);
      WithRow(s, s.call.job, o.row, o.call)
    case Send =>
      var js := s.jobs[s.call.job];
      s.(jobs := s.jobs[s.call.job := js.(posts := js.posts + multiset{s.call.msg})],
         call := Waiting(s.call.job, s.call.msg, s.call.priorAttempt, s.call.priorCount))
    case GiveUp => s.(call := Idle)
    case SettleReply =>
      var o := Settle(s.call.job, s.jobs[s.call.job].row, s.call.msg, s.call.priorAttempt, s.call.priorCount, s.call.status);
      WithRow(s, s.call.job, o.row, o.call)
    case ArchiveConfirmed =>
      var j, remote := s.call.job, s.call.snap.value;
      WithRow(s, j, KeepReceipt(j, s.jobs[j].row, remote), Archived(j, s.call.snap)).(
        docs := s.docs + {Doc(j, s.jobs[j].row.attempt, remote.result, remote.receipts)})
    case SaveResultFile =>
      var o := SaveResult(s.call.job, s.jobs[s.call.job].row, s.call.snap.value);
      WithRow(s, s.call.job, o.row, o.call)
    case FinishRow => WithRow(s, s.call.job, Finish(s.jobs[s.call.job].row), Idle)
    case Deliver(j, msg, awaited, gate) => DeliverTo(s, j, msg, awaited, gate)
    case CutRelease(j, w, removed) =>
      CrashAll(s.(jobs := s.jobs[j := ReleaseCut(s.jobs[j], w, removed)]), w)
    case WorkOn(j, w, work) =>
      s.(jobs := s.jobs[j := Work(s.jobs[j], w, work, s.store)],
         workers := s.workers[w := s.workers[w].(
           active := if work.LeaveActive? then s.workers[w].active - {j} else s.workers[w].active)])
    case StorePut(key, content) => s.(store := s.store[key := content])
    case StoreDoc(doc) => s.(docs := s.docs + {doc})
    case Crash(w) => CrashAll(s, w)
    case Restart(w) =>
      s.(workers := s.workers[w := Worker(true, BusyJobs(s, w))], jobs := map j | j in s.jobs :: RestartJob(s.jobs[j], w))
  }

  ghost predicate Next(s: Sys, t: Sys) {
    exists step :: Allowed(s, step) && t == Apply(s, step)
  }

  /** A queue as loaded: nothing submitted, workers up and idle; the store may already hold anything. */
  predicate Init(s: Sys) {
    s.call.Idle?
    && (forall j :: j in s.jobs ==> var js := s.jobs[j];
          js == JobSt(Row(Queued, js.row.worker, 0, js.row.sourceBytes, 0, 0, 0, map[], None, None),
                      multiset{}, map[], multiset{}, 0, 0))
    && (forall w :: w in s.workers ==> s.workers[w] == Worker(true, {}))
  }

  /** A finite run from an initial state. Every reachable state ends one. */
  ghost predicate IsRun(run: seq<Sys>) {
    |run| > 0 && Init(run[0]) && forall i :: 0 < i < |run| ==> Next(run[i - 1], run[i])
  }
}
