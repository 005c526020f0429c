/** What happens if nothing goes wrong any more: a job is taken up again, executed, exported, and in the end verified. */
module StagingLiveness {
  import opened Wrappers
  import opened StagingTypes
  import opened WorkerProtocol
  import opened ControllerProtocol
  import opened StagingSystem
  import opened StagingInvariant
  import opened StagingSafety
  import opened StagingProgress
  import opened StagingTheorems

  /** An idle controller, the row, and its directory on a running worker with this ACTIVE set. */
  ghost predicate At(s: Sys, j: JobId, w: WorkerId, row: Row, root: Option<Root>, active: set<JobId>) {
    Inv(s) && s.call.Idle? && j in s.jobs && s.jobs[j].row == row && RootOn(s.jobs[j], w) == root
    && w in s.workers && s.workers[w] == Worker(true, active)
  }

  ghost predicate Ends(s: Sys, steps: seq<Step>, t: Sys) { After(s, steps) == Some(t) }

  lemma OneStep(s: Sys, step: Step)
    requires Allowed(s, step)
    ensures Ends(s, [step], Apply(s, step))
  {
    hide Apply, Allowed;
    AfterStep(s, step, []);
    assert [step] + [] == [step];
  }

  lemma Chained(s: Sys, a: seq<Step>, t: Sys, b: seq<Step>, u: Sys)
    requires Ends(s, a, t) && Ends(t, b, u)
    ensures Ends(s, a + b, u)
  {
    AfterBoth(s, a, b);
  }

  // ----- one POST -----

  /** A worker whose ACTIVE is empty has no thread for the job, so a handler may start one. */
  lemma IdleThreads(s: Sys, j: JobId, w: WorkerId)
    requires Inv(s) && j in s.jobs && w in s.workers && s.workers[w] == Worker(true, {}) && w in s.jobs[j].roots
    ensures s.jobs[j].roots[w].threads == {} && !s.jobs[j].roots[w].state.Busy()
  {
    hide JobInv;
    assert WorkerInv(s, w);
    assert !Occupies(s, w, j);
  }

  /** The POST of a commit is sent, handled at once and settled; it started something. */
  lemma PostRuns(s: Sys, j: JobId, msg: Message, prior: nat, count: nat, active: set<JobId>) returns (t: Sys)
    requires Inv(s) && s.call == Sending(j, msg, prior, count) && j in s.jobs && msg.worker in s.workers
    requires s.workers[msg.worker] == Worker(true, active) && !msg.ReleasePost?
    requires Handle(j, s.jobs[j], active, msg, Open).status == 202
    ensures var answer := Handle(j, s.jobs[j], active, msg, Open);
            Ends(s, [Send, Deliver(j, msg, true, Open), SettleReply], t) && t.store == s.store
            && At(t, j, msg.worker, s.jobs[j].row, answer.root, answer.active)
  {
    hide Inv, Handle, Ends;
    var answer := Handle(j, s.jobs[j], active, msg, Open);
    var step := Deliver(j, msg, true, Open);
    Sends(s, j, msg, prior, count, active);
    var a := Apply(s, Send);
    var b := Apply(a, step);
    Settles202(b, j, msg);
    t := Apply(b, SettleReply);
    StepHolds(s, Send);
    StepHolds(a, step);
    StepHolds(b, SettleReply);
    OneStep(s, Send);
    OneStep(a, step);
    OneStep(b, SettleReply);
    Chained(a, [step], b, [SettleReply], t);
    Chained(s, [Send], a, [step] + [SettleReply], t);
    assert [Send] + ([step] + [SettleReply]) == [Send, step, SettleReply];
    assert At(t, j, msg.worker, s.jobs[j].row, answer.root, answer.active);
  }

  lemma Sends(s: Sys, j: JobId, msg: Message, prior: nat, count: nat, active: set<JobId>)
    requires s.call == Sending(j, msg, prior, count) && j in s.jobs && msg.worker in s.workers
    requires s.workers[msg.worker] == Worker(true, active) && !msg.ReleasePost?
    requires Handle(j, s.jobs[j], active, msg, Open).status == 202
    ensures Allowed(s, Send)
    ensures var a := Apply(s, Send); var step := Deliver(j, msg, true, Open); var answer := Handle(j, s.jobs[j], active, msg, Open);
            Allowed(a, step) && var b := Apply(a, step);
            b.call == Answered(j, msg, prior, count, 202) && j in b.jobs && b.jobs[j].row == s.jobs[j].row && b.store == s.store
            && msg.worker in b.workers && b.workers[msg.worker] == Worker(true, answer.active)
            && RootOn(b.jobs[j], msg.worker) == answer.root
  {
    HandlesAlike(j, s.jobs[j], s.jobs[j].(posts := s.jobs[j].posts + multiset{msg}), active, msg);
    hide Handle;
  }

  lemma HandlesAlike(j: JobId, js: JobSt, js': JobSt, active: set<JobId>, msg: Message)
    requires js'.roots == js.roots && !msg.ReleasePost?
    ensures var answer := Handle(j, js, active, msg, Open);
            Handle(j, js', active, msg, Open) == answer && (answer.status == 202 ==> answer.root.Some?)
  {
  }

  lemma Settles202(s: Sys, j: JobId, msg: Message)
    requires s.call.Answered? && s.call.job == j && s.call.msg == msg && s.call.status == 202 && j in s.jobs && !msg.ReleasePost?
    ensures Allowed(s, SettleReply)
    ensures var t := Apply(s, SettleReply);
            t.call.Idle? && j in t.jobs && t.jobs[j] == s.jobs[j] && t.workers == s.workers && t.store == s.store
  {
  }

  // ----- a reconciliation that submits again -----

  /** One pass over a submitted row whose reconciliation ends in a POST the worker takes. */
  function Cycle(j: JobId, msg: Message): seq<Step> {
    [Get(j), ReconcileRow(true, true), Send, Deliver(j, msg, true, Open), SettleReply]
  }

  /** The directory of an attempt just admitted. */
  function Started(root: Option<Root>, b: nat): Root {
    if root.None? then Root(Accepted(b), {}, map[], map[], {ExecStart(b)})
    else root.value.(state := Accepted(b), threads := {ExecStart(b)})
  }

  /** A reconciliation that commits a POST, which the worker then takes. */
  lemma CycleRuns(s: Sys, j: JobId, w: WorkerId, row: Row, root: Option<Root>, msg: Message, row': Row) returns (t: Sys)
    requires At(s, j, w, row, root, {}) && row.state.Submitted? && row.worker == w && msg.worker == w && !msg.ReleasePost?
    requires var o := Reconcile(j, row, if root.Some? then Some(root.value.state) else None, true, true);
             o.row == row' && o.call.Sending? && o.call.job == j && o.call.msg == msg
    requires Handle(j, s.jobs[j], {}, msg, Open).status == 202
    ensures var answer := Handle(j, s.jobs[j], {}, msg, Open);
            Ends(s, Cycle(j, msg), t) && t.store == s.store && At(t, j, w, row', answer.root, answer.active)
  {
    hide Inv, Handle, Ends;
    var a, b := Commits(s, j, w, row, root, msg, row');
    StepHolds(s, Get(j));
    StepHolds(a, ReconcileRow(true, true));
    OneStep(s, Get(j));
    OneStep(a, ReconcileRow(true, true));
    Chained(s, [Get(j)], a, [ReconcileRow(true, true)], b);
    HandlesAlike(j, s.jobs[j], b.jobs[j], {}, msg);
    hide At, Reconcile;
    t := PostRuns(b, j, msg, b.call.priorAttempt, b.call.priorCount, {});
    var tail := [Send, Deliver(j, msg, true, Open), SettleReply];
    Chained(s, [Get(j)] + [ReconcileRow(true, true)], b, tail, t);
    assert [Get(j)] + [ReconcileRow(true, true)] + tail == Cycle(j, msg);
  }

  lemma Commits(s: Sys, j: JobId, w: WorkerId, row: Row, root: Option<Root>, msg: Message, row': Row) returns (a: Sys, b: Sys)
    requires At(s, j, w, row, root, {}) && row.state.Submitted? && row.worker == w && msg.worker == w
    requires var o := Reconcile(j, row, if root.Some? then Some(root.value.state) else None, true, true);
             o.row == row' && o.call.Sending? && o.call.job == j && o.call.msg == msg
    ensures Allowed(s, Get(j)) && a == Apply(s, Get(j))
    ensures Allowed(a, ReconcileRow(true, true)) && b == Apply(a, ReconcileRow(true, true))
    ensures b.call.Sending? && b.call.job == j && b.call.msg == msg && b.store == s.store && b.workers == s.workers
    ensures j in b.jobs && b.jobs[j] == s.jobs[j].(row := row')
  {
    hide Reconcile, Inv;
    a := Apply(s, Get(j));
    b := Apply(a, ReconcileRow(true, true));
  }

  /** The invariant's word on a row whose worker has nothing, or an interrupted attempt, of its job. */
  lemma NextAttempt(s: Sys, j: JobId, w: WorkerId, row: Row, root: Option<Root>, b: nat)
    requires At(s, j, w, row, root, {}) && row.state.Submitted? && row.worker == w && row.submissions < 3 && 1 <= b <= 3
    requires if root.None? then b == 1 else root.value.state == Failed(b - 1, WorkerRestarted)
    ensures row.attempt == b || (row.attempt + 1 == b && root.Some?)
    ensures root.Some? ==> root.value.threads == {}
    ensures var o := Reconcile(j, row, if root.Some? then Some(root.value.state) else None, true, true);
            o.row == row.(attempt := b, submissions := row.submissions + 1)
            && o.call.Sending? && o.call.job == j && o.call.msg == JobPost(w, b)
    ensures var answer := Handle(j, s.jobs[j], {}, JobPost(w, b), Open);
            answer.status == 202 && answer.root == Some(Started(root, b)) && answer.active == {j}
  {
    WaitsForNext(s, j, w, row, root, b);
    PostsNext(j, row, root, b);
    AdmitsNext(j, s.jobs[j], w, root, b);
    hide Inv, Reconcile, Handle, Started;
  }

  lemma WaitsForNext(s: Sys, j: JobId, w: WorkerId, row: Row, root: Option<Root>, b: nat)
    requires At(s, j, w, row, root, {}) && row.state.Submitted? && row.worker == w && 1 <= b <= 3
    requires if root.None? then b == 1 else root.value.state == Failed(b - 1, WorkerRestarted)
    ensures row.attempt == b || (row.attempt + 1 == b && root.Some?)
    ensures root.Some? ==> root.value.threads == {}
  {
    assert JobInv(j, s.jobs[j], Idle, s.store, s.docs);
    if root.Some? {
      IdleThreads(s, j, w);
    }
    hide WorkerInv, OneSubmitted, OwnersExist, Present;
  }

  lemma PostsNext(j: JobId, row: Row, root: Option<Root>, b: nat)
    requires row.state.Submitted? && row.submissions < 3 && 1 <= b <= 3 && (row.attempt == b || (row.attempt + 1 == b && root.Some?))
    requires if root.None? then b == 1 else root.value.state == Failed(b - 1, WorkerRestarted)
    ensures var o := Reconcile(j, row, if root.Some? then Some(root.value.state) else None, true, true);
            o.row == row.(attempt := b, submissions := row.submissions + 1)
            && o.call.Sending? && o.call.job == j && o.call.msg == JobPost(row.worker, b)
  {
  }

  lemma AdmitsNext(j: JobId, js: JobSt, w: WorkerId, root: Option<Root>, b: nat)
    requires RootOn(js, w) == root && 1 <= b <= 3 && (root.Some? ==> root.value.threads == {})
    requires if root.None? then b == 1 else root.value.state == Failed(b - 1, WorkerRestarted)
    ensures var answer := Handle(j, js, {}, JobPost(w, b), Open);
            answer.status == 202 && answer.root == Some(Started(root, b)) && answer.active == {j}
  {
    assert {} + {ExecStart(b)} == {ExecStart(b)} && {} + {j} == {j};
  }

  lemma TakenUpAgain(s: Sys, j: JobId, w: WorkerId, row: Row, root: Option<Root>, b: nat) returns (t: Sys)
    requires At(s, j, w, row, root, {}) && row.state.Submitted? && row.worker == w && row.submissions < 3 && 1 <= b <= 3
    requires if root.None? then b == 1 else root.value.state == Failed(b - 1, WorkerRestarted)
    ensures Ends(s, Cycle(j, JobPost(w, b)), t) && t.store == s.store
    ensures At(t, j, w, row.(attempt := b, submissions := row.submissions + 1), Some(Started(root, b)), {j})
  {
    NextAttempt(s, j, w, row, root, b);
    hide At, Handle, Reconcile, Ends, Started;
    t := CycleRuns(s, j, w, row, root, JobPost(w, b), row.(attempt := b, submissions := row.submissions + 1));
  }

  /** The controller is idle with this row, and the worker has just admitted attempt `b`, with nothing else in ACTIVE. */
  ghost predicate Admitted(t: Option<Sys>, j: JobId, w: WorkerId, row: Row, b: nat) {
    t.Some? && t.value.call.Idle? && j in t.value.jobs && t.value.jobs[j].row == row
    && w in t.value.jobs[j].roots && t.value.jobs[j].roots[w].state == Accepted(b)
    && t.value.jobs[j].roots[w].threads == {ExecStart(b)}
    && w in t.value.workers && t.value.workers[w] == Worker(true, {j})
  }

  lemma StartedIsAdmitted(s: Sys, t: Sys, j: JobId, w: WorkerId, row: Row, root: Option<Root>, b: nat)
    requires Ends(s, Cycle(j, JobPost(w, b)), t) && At(t, j, w, row, Some(Started(root, b)), {j})
    ensures Admitted(After(s, Cycle(j, JobPost(w, b))), j, w, row, b)
  {
    hide Inv, After, Cycle;
  }

  /** An interrupted attempt is followed by the next one: the worker admits it and the row is still submitted. */
  lemma InterruptedRunsAgain(s: Sys, j: JobId)
    requires Inv(s) && s.call.Idle? && j in s.jobs && s.jobs[j].row.state.Submitted?
    requires s.jobs[j].row.attempt < 3 && s.jobs[j].row.submissions < 3
    requires var w := s.jobs[j].row.worker;
             w in s.workers && s.workers[w] == Worker(true, {}) && w in s.jobs[j].roots
             && s.jobs[j].roots[w].state == Failed(s.jobs[j].row.attempt, WorkerRestarted)
    ensures var row, w, a := s.jobs[j].row, s.jobs[j].row.worker, s.jobs[j].row.attempt;
            var steps := [Get(j), ReconcileRow(true, true), Send, Deliver(j, JobPost(w, a + 1), true, Open), SettleReply];
            Admitted(After(s, steps), j, w, row.(attempt := a + 1, submissions := row.submissions + 1), a + 1)
  {
    hide Inv, After, Ends, Started, Admitted;
    var row, w, root := s.jobs[j].row, s.jobs[j].row.worker, Some(s.jobs[j].roots[s.jobs[j].row.worker]);
    var row' := row.(attempt := row.attempt + 1, submissions := row.submissions + 1);
    var t := TakenUpAgain(s, j, w, row, root, row.attempt + 1);
    StartedIsAdmitted(s, t, j, w, row', root, row.attempt + 1);
  }

  /** A submission whose POST never arrived, on a worker without the job or one attempt behind, is sent again as it was. */
  lemma LostIsSentAgain(s: Sys, j: JobId)
    requires Inv(s) && s.call.Idle? && j in s.jobs && s.jobs[j].row.state.Submitted? && s.jobs[j].row.submissions < 3
    requires var w, a := s.jobs[j].row.worker, s.jobs[j].row.attempt;
             w in s.workers && s.workers[w] == Worker(true, {})
             && (w in s.jobs[j].roots ==> s.jobs[j].roots[w].state.attempt + 1 == a)
    ensures var row, w, a := s.jobs[j].row, s.jobs[j].row.worker, s.jobs[j].row.attempt;
            var steps := [Get(j), ReconcileRow(true, true), Send, Deliver(j, JobPost(w, a), true, Open), SettleReply];
            Admitted(After(s, steps), j, w, row.(submissions := row.submissions + 1), a)
  {
    var row, w := s.jobs[j].row, s.jobs[j].row.worker;
    LostIsBehind(s, j);
    hide Inv, After, Ends, Started, Admitted, Cycle;
    var root, row' := RootOn(s.jobs[j], w), row.(submissions := row.submissions + 1);
    var t := TakenUpAgain(s, j, w, row, root, row.attempt);
    StartedIsAdmitted(s, t, j, w, row', root, row.attempt);
  }

  lemma LostIsBehind(s: Sys, j: JobId)
    requires Inv(s) && s.call.Idle? && j in s.jobs && s.jobs[j].row.state.Submitted?
    ensures var row, js := s.jobs[j].row, s.jobs[j];
            1 <= row.attempt <= 3
            && if row.worker in js.roots
               then js.roots[row.worker].state.attempt + 1 == row.attempt
                    ==> js.roots[row.worker].state == Failed(row.attempt - 1, WorkerRestarted)
               else row.attempt == 1
  {
    assert JobInv(j, s.jobs[j], Idle, s.store, s.docs);
    hide JobInv, WorkerInv;
    Behind(j, s.jobs[j], s.store, s.docs);
  }

  lemma Behind(j: JobId, js: JobSt, store: map<Key, Object>, docs: set<Doc>)
    requires JobInv(j, js, Idle, store, docs) && js.row.state.Submitted?
    ensures 1 <= js.row.attempt <= 3
    ensures if js.row.worker in js.roots
            then js.roots[js.row.worker].state.attempt + 1 == js.row.attempt
                 ==> js.roots[js.row.worker].state == Failed(js.row.attempt - 1, WorkerRestarted)
            else js.row.attempt == 1
  {
  }

  // ----- the worker's threads -----

  lemma WorkRuns(s: Sys, j: JobId, w: WorkerId, row: Row, root: Root, active: set<JobId>, work: WorkStep)
    requires At(s, j, w, row, Some(root), active) && Enabled(root, work, s.store)
    ensures Allowed(s, WorkOn(j, w, work))
    ensures var t := Apply(s, WorkOn(j, w, work));
            Ends(s, [WorkOn(j, w, work)], t) && t.store == s.store
            && At(t, j, w, row, Some(Worked(root, work, s.store)), if work.LeaveActive? then active - {j} else active)
  {
    hide Inv, Enabled, Worked, Ends;
    assert Allowed(s, WorkOn(j, w, work));
    StepHolds(s, WorkOn(j, w, work));
    OneStep(s, WorkOn(j, w, work));
  }

  /** One more step of the job's threads at the end of a list. */
  lemma WorksOn(s: Sys, steps: seq<Step>, t: Sys, j: JobId, w: WorkerId, row: Row, root: Root, active: set<JobId>, work: WorkStep)
    returns (u: Sys)
    requires Ends(s, steps, t) && At(t, j, w, row, Some(root), active) && Enabled(root, work, t.store)
    ensures Ends(s, steps + [WorkOn(j, w, work)], u) && u.store == t.store
    ensures At(u, j, w, row, Some(Worked(root, work, t.store)), if work.LeaveActive? then active - {j} else active)
  {
    hide Inv, Enabled, Worked, Ends, At, Allowed, Apply;
    WorkRuns(t, j, w, row, root, active, work);
    u := Apply(t, WorkOn(j, w, work));
    Chained(s, steps, t, [WorkOn(j, w, work)], u);
  }

  /** What an execution leaves: staged only after a clean exit with a result. */
  function Executed(a: nat, exit: Exit): WState {
    if exit.clean && exit.result.Some? then Staged(a, exit.result.value)
    else Failed(a, if exit.clean then ExecutionFailed else MediaFailed)
  }

  function ExecutionSteps(j: JobId, w: WorkerId, a: nat, exit: Exit): seq<Step> {
    [WorkOn(j, w, Begin(a)), WorkOn(j, w, Launch(a)), WorkOn(j, w, RunnerExits(a, exit)), WorkOn(j, w, FinishExec(a)),
     WorkOn(j, w, LeaveActive)]
  }

  /** An admitted attempt runs to its end and frees the worker. */
  lemma ExecutionEnds(s: Sys, j: JobId, w: WorkerId, row: Row, root: Root, exit: Exit) returns (t: Sys)
    requires At(s, j, w, row, Some(root), {j}) && root.state.Accepted? && root.threads == {ExecStart(root.state.attempt)}
    ensures Ends(s, ExecutionSteps(j, w, root.state.attempt, exit), t) && t.store == s.store
    ensures var a := root.state.attempt;
            At(t, j, w, row, Some(Root(Executed(a, exit), root.live - {a}, root.exits[a := exit], root.disk[a := exit.files], {})), {})
  {
    hide At, Ends;
    var a := root.state.attempt;
    NoSteps(s);
    t := WorksOn(s, [], s, j, w, row, root, {j}, Begin(a));
    var r := Worked(root, Begin(a), s.store);
    assert r.threads == {ExecSpawn(a)};
    t := WorksOn(s, [] + [WorkOn(j, w, Begin(a))], t, j, w, row, r, {j}, Launch(a));
    r := Worked(r, Launch(a), s.store);
    assert r.threads == {ExecWait(a)} && r == Root(Running(a), root.live + {a}, root.exits, root.disk, {ExecWait(a)});
    t := RunnerFinishes(s, [] + [WorkOn(j, w, Begin(a))] + [WorkOn(j, w, Launch(a))], t, j, w, row, r, exit);
    assert root.live + {a} - {a} == root.live - {a};
    assert [] + [WorkOn(j, w, Begin(a))] + [WorkOn(j, w, Launch(a))] + [WorkOn(j, w, RunnerExits(a, exit))]
           + [WorkOn(j, w, FinishExec(a))] + [WorkOn(j, w, LeaveActive)] == ExecutionSteps(j, w, a, exit);
  }

  lemma RunnerFinishes(s: Sys, steps: seq<Step>, mid: Sys, j: JobId, w: WorkerId, row: Row, root: Root, exit: Exit) returns (t: Sys)
    requires Ends(s, steps, mid) && At(mid, j, w, row, Some(root), {j}) && root.state.Running?
    requires root.state.attempt in root.live && root.threads == {ExecWait(root.state.attempt)}
    ensures var a := root.state.attempt;
            Ends(s, steps + [WorkOn(j, w, RunnerExits(a, exit))] + [WorkOn(j, w, FinishExec(a))] + [WorkOn(j, w, LeaveActive)], t)
            && At(t, j, w, row, Some(Root(Executed(a, exit), root.live - {a}, root.exits[a := exit], root.disk[a := exit.files], {})), {})
    ensures t.store == mid.store
  {
    hide At, Ends;
    var a := root.state.attempt;
    t := WorksOn(s, steps, mid, j, w, row, root, {j}, RunnerExits(a, exit));
    var r := Worked(root, RunnerExits(a, exit), mid.store);
    t := WorksOn(s, steps + [WorkOn(j, w, RunnerExits(a, exit))], t, j, w, row, r, {j}, FinishExec(a));
    r := Worked(r, FinishExec(a), mid.store);
    assert r.threads == {Ending} && r.state == Executed(a, exit);
    t := WorksOn(s, steps + [WorkOn(j, w, RunnerExits(a, exit))] + [WorkOn(j, w, FinishExec(a))], t, j, w, row, r, {j}, LeaveActive);
    assert {j} - {j} == {} && {Ending} - {Ending} == {};
    assert Worked(r, LeaveActive, mid.store)
           == Root(Executed(a, exit), root.live - {a}, root.exits[a := exit], root.disk[a := exit.files], {});
  }

  lemma NoSteps(s: Sys)
    ensures Ends(s, [], s)
  {
  }

  // ----- a worker crash -----

  /** What a restarted worker makes of a runner that was alive when it crashed: a finished result of the job is kept. */
  function Recovered(a: nat, exit: Exit): WState {
    if exit.result.None? then Failed(a, WorkerRestarted)
    else if exit.result.value.stagingOnly && exit.result.value.hourMatches then Staged(a, exit.result.value)
    else Failed(a, RecoveryHold)
  }

  function RecoverySteps(j: JobId, w: WorkerId, a: nat, exit: Exit): seq<Step> {
    [Crash(w), Restart(w), WorkOn(j, w, RunnerExits(a, exit)), WorkOn(j, w, FinishRecover(a))]
    + if Recovered(a, exit) == Failed(a, RecoveryHold) then [] else [WorkOn(j, w, LeaveActive)]
  }

  lemma CrashAndRestart(s: Sys, j: JobId, w: WorkerId, row: Row, root: Root) returns (t: Sys)
    requires At(s, j, w, row, Some(root), {j}) && root.state.Busy()
    ensures Ends(s, [Crash(w), Restart(w)], t) && t.store == s.store
    ensures At(t, j, w, row, Some(root.(threads := {Recovering(root.state.attempt)})), {j})
  {
    hide Inv, Ends, Apply, Allowed, BusyJobs, RestartRoot;
    OnlyBusy(s, j, w);
    CrashState(s, j, w, root);
    var u := Apply(s, Crash(w));
    StepHolds(s, Crash(w));
    RestartState(u, j, w, root.(threads := {}));
    t := Apply(u, Restart(w));
    StepHolds(u, Restart(w));
    OneStep(s, Crash(w));
    OneStep(u, Restart(w));
    Chained(s, [Crash(w)], u, [Restart(w)], t);
    assert [Crash(w)] + [Restart(w)] == [Crash(w), Restart(w)];
    TakenUp(root);
  }

  lemma TakenUp(root: Root)
    requires root.state.Busy()
    ensures RestartRoot(root.(threads := {})) == root.(threads := {Recovering(root.state.attempt)})
  {
  }

  lemma OnlyBusy(s: Sys, j: JobId, w: WorkerId)
    requires Inv(s) && j in s.jobs && w in s.workers && s.workers[w] == Worker(true, {j}) && w in s.jobs[j].roots
    requires s.jobs[j].roots[w].state.Busy()
    ensures BusyJobs(s, w) == {j}
  {
    hide JobInv;
    assert WorkerInv(s, w);
    forall i ensures i in BusyJobs(s, w) <==> i == j {
      if i in BusyJobs(s, w) { assert Occupies(s, w, i); }
    }
  }

  lemma CrashState(s: Sys, j: JobId, w: WorkerId, root: Root)
    requires j in s.jobs && RootOn(s.jobs[j], w) == Some(root) && w in s.workers && s.workers[w].up
    ensures Allowed(s, Crash(w))
    ensures var u := Apply(s, Crash(w));
            u.call == s.call && u.store == s.store && j in u.jobs && u.jobs[j].row == s.jobs[j].row
            && RootOn(u.jobs[j], w) == Some(root.(threads := {})) && w in u.workers && !u.workers[w].up && BusyJobs(u, w) == BusyJobs(s, w)
  {
    forall i ensures i in BusyJobs(Apply(s, Crash(w)), w) <==> i in BusyJobs(s, w) {
    }
  }

  lemma RestartState(s: Sys, j: JobId, w: WorkerId, root: Root)
    requires j in s.jobs && RootOn(s.jobs[j], w) == Some(root) && w in s.workers && !s.workers[w].up
    ensures Allowed(s, Restart(w))
    ensures var u := Apply(s, Restart(w));
            u.call == s.call && u.store == s.store && j in u.jobs && u.jobs[j].row == s.jobs[j].row
            && RootOn(u.jobs[j], w) == Some(RestartRoot(root)) && w in u.workers && u.workers[w] == Worker(true, BusyJobs(s, w))
  {
    hide RestartRoot, BusyJobs;
  }

  /** A worker crashes while a runner is alive: the runner's end still decides, once the worker is back. */
  lemma RecoveryEnds(s: Sys, j: JobId, w: WorkerId, row: Row, root: Root, exit: Exit) returns (t: Sys)
    requires At(s, j, w, row, Some(root), {j}) && root.state.Running? && root.state.attempt in root.live
    ensures var a := root.state.attempt; var held := Recovered(a, exit) == Failed(a, RecoveryHold);
            Ends(s, RecoverySteps(j, w, a, exit), t) && t.store == s.store
            && At(t, j, w, row, Some(Root(Recovered(a, exit), root.live - {a}, root.exits[a := exit], root.disk[a := exit.files], {})),
                  if held then {j} else {})
  {
    hide At, Ends;
    var a := root.state.attempt;
    t := CrashAndRestart(s, j, w, row, root);
    var r := root.(threads := {Recovering(a)});
    t := WorksOn(s, [Crash(w), Restart(w)], t, j, w, row, r, {j}, RunnerExits(a, exit));
    r := Worked(r, RunnerExits(a, exit), s.store);
    var steps := [Crash(w), Restart(w)] + [WorkOn(j, w, RunnerExits(a, exit))];
    t := WorksOn(s, steps, t, j, w, row, r, {j}, FinishRecover(a));
    r := Worked(r, FinishRecover(a), s.store);
    steps := steps + [WorkOn(j, w, FinishRecover(a))];
    assert r.state == Recovered(a, exit);
    if Recovered(a, exit) == Failed(a, RecoveryHold) {
      assert r.threads == {} && steps == RecoverySteps(j, w, a, exit);
    } else {
      assert r.threads == {Ending};
      t := WorksOn(s, steps, t, j, w, row, r, {j}, LeaveActive);
      assert {j} - {j} == {} && {Ending} - {Ending} == {};
      assert steps + [WorkOn(j, w, LeaveActive)] == RecoverySteps(j, w, a, exit);
    }
  }

  /** A result appears in a directory only by a clean exit or by a recovery that checked it, and it is the runner's. */
  lemma ResultsAreRunners(s: Sys, step: Step, j: JobId, w: WorkerId)
    requires Inv(s) && Allowed(s, step) && j in s.jobs && w in s.jobs[j].roots && !s.jobs[j].roots[w].state.HasResult()
    ensures j in Apply(s, step).jobs && w in Apply(s, step).jobs[j].roots
    ensures var root, x := s.jobs[j].roots[w], Apply(s, step).jobs[j].roots[w].state;
            x.HasResult() ==>
              x.attempt in root.exits && x == Staged(x.attempt, x.result) && root.exits[x.attempt].result == Some(x.result)
              && (if step == WorkOn(j, w, FinishExec(x.attempt)) then root.exits[x.attempt].clean
                  else step == WorkOn(j, w, FinishRecover(x.attempt)) && x.result.stagingOnly && x.result.hourMatches)
  {
    hide Inv;
    StateStays(s, step, j, w);
    if step.WorkOn? && step.job == j && step.worker == w {
      WorkedState(s.jobs[j].roots[w], step.work, s.store);
    }
  }

  /** Only a POST or a thread of its own changes what a directory says before there is a result. */
  lemma StateStays(s: Sys, step: Step, j: JobId, w: WorkerId)
    requires Allowed(s, step) && j in s.jobs && w in s.jobs[j].roots && !s.jobs[j].roots[w].state.HasResult()
    ensures var t := Apply(s, step);
            j in t.jobs && w in t.jobs[j].roots
            && ((step.WorkOn? && step.job == j && step.worker == w)
                || t.jobs[j].roots[w].state == s.jobs[j].roots[w].state || !t.jobs[j].roots[w].state.HasResult())
  {
    hide Reconcile, BeginSubmit, Settle, Enabled, Worked, Handle, Handled, CrashAll, RestartJob, NoneSubmitted, KeepReceipt;
    match step {
      case Deliver(i, msg, _, gate) =>
        if msg.worker == w {
          if i == j { PostedState(j, s.jobs[j], s.workers[w].active, msg, gate); }
        } else {
          PostedElsewhere(i, s.jobs[i], s.workers[msg.worker].active, msg, gate, w);
        }
      case CutRelease(_, _, _) => CrashStays(s, step, j, w);
      case Crash(_) => CrashStays(s, step, j, w);
      case Restart(v) => RestartStays(s, v, j, w);
      case _ =>
    }
  }

  lemma PostedElsewhere(j: JobId, js: JobSt, active: set<JobId>, msg: Message, gate: Gate, w: WorkerId)
    requires w != msg.worker
    ensures var js' := Handled(js, msg, Handle(j, js, active, msg, gate)); RootOn(js', w) == RootOn(js, w)
  {
  }

  lemma CrashStays(s: Sys, step: Step, j: JobId, w: WorkerId)
    requires (step.Crash? || step.CutRelease?) && Allowed(s, step) && j in s.jobs && w in s.jobs[j].roots
    ensures var t := Apply(s, step);
            j in t.jobs && w in t.jobs[j].roots && t.jobs[j].roots[w].state == s.jobs[j].roots[w].state
  {
    hide Unlinked, Removable;
    if step.CutRelease? { UnlinkedState(s.jobs[step.job], step.worker, step.removed); }
  }

  lemma UnlinkedState(js: JobSt, w: WorkerId, removed: nat)
    requires w in js.roots && js.roots[w].state.Exported? && removed <= |js.roots[w].state.result.outputs|
    ensures ReleaseCut(js, w, removed).roots.Keys == js.roots.Keys
    ensures forall v :: v in js.roots ==> ReleaseCut(js, w, removed).roots[v].state == js.roots[v].state
  {
  }

  lemma RestartStays(s: Sys, v: WorkerId, j: JobId, w: WorkerId)
    requires Allowed(s, Restart(v)) && j in s.jobs && w in s.jobs[j].roots && !s.jobs[j].roots[w].state.HasResult()
    ensures var t := Apply(s, Restart(v));
            j in t.jobs && w in t.jobs[j].roots && t.jobs[j].roots[w].state == s.jobs[j].roots[w].state
  {
  }

  lemma PostedState(j: JobId, js: JobSt, active: set<JobId>, msg: Message, gate: Gate)
    requires msg.worker in js.roots && !js.roots[msg.worker].state.HasResult()
    ensures var js' := Handled(js, msg, Handle(j, js, active, msg, gate));
            msg.worker in js'.roots && !js'.roots[msg.worker].state.HasResult()
  {
  }

  lemma WorkedState(root: Root, work: WorkStep, store: map<Key, Object>)
    requires Enabled(root, work, store) && !root.state.HasResult()
    ensures var x := Worked(root, work, store).state;
            x.HasResult() ==>
              x.attempt in root.exits && x == Staged(x.attempt, x.result) && root.exits[x.attempt].result == Some(x.result)
              && (if work == FinishExec(x.attempt) then root.exits[x.attempt].clean
                  else work == FinishRecover(x.attempt) && x.result.stagingOnly && x.result.hourMatches)
  {
  }

  // ----- from the queue to the receipt -----

  /** The first submission of a queued job to a free worker. */
  lemma FirstRuns(s: Sys, j: JobId, w: WorkerId, row: Row) returns (t: Sys)
    requires Inv(s) && s.call.Idle? && j in s.jobs && s.jobs[j].row == row && row.state.Queued?
    requires w in s.workers && s.workers[w] == Worker(true, {}) && NoneSubmitted(s, w)
    ensures Ends(s, [Dispatch(j, w, true)] + [Send, Deliver(j, JobPost(w, 1), true, Open), SettleReply], t) && t.store == s.store
    ensures At(t, j, w, row.(state := Submitted, worker := w, attempt := 1, submissions := 1),
               Some(Root(Accepted(1), {}, map[], map[], {ExecStart(1)})), {j})
  {
    var row' := row.(state := Submitted, worker := w, attempt := 1, submissions := 1);
    hide Inv, At, Handle, Ends, Apply, Allowed, NoneSubmitted;
    var a := Begins(s, j, w, row, row');
    StepHolds(s, Dispatch(j, w, true));
    OneStep(s, Dispatch(j, w, true));
    t := PostRuns(a, j, JobPost(w, 1), 0, 0, {});
    var tail := [Send, Deliver(j, JobPost(w, 1), true, Open), SettleReply];
    Chained(s, [Dispatch(j, w, true)], a, tail, t);
  }

  lemma Begins(s: Sys, j: JobId, w: WorkerId, row: Row, row': Row) returns (a: Sys)
    requires Inv(s) && s.call.Idle? && j in s.jobs && s.jobs[j].row == row && row.state.Queued?
    requires w in s.workers && s.workers[w] == Worker(true, {}) && NoneSubmitted(s, w)
    requires row' == row.(state := Submitted, worker := w, attempt := 1, submissions := 1)
    ensures Allowed(s, Dispatch(j, w, true)) && a == Apply(s, Dispatch(j, w, true))
    ensures a.call == Sending(j, JobPost(w, 1), 0, 0) && j in a.jobs && a.jobs[j].row == row'
    ensures a.workers == s.workers && a.store == s.store
    ensures var answer := Handle(j, a.jobs[j], {}, JobPost(w, 1), Open);
            answer.status == 202 && answer.root == Some(Root(Accepted(1), {}, map[], map[], {ExecStart(1)})) && answer.active == {j}
  {
    hide NoneSubmitted, WorkerInv, OneSubmitted, OwnersExist;
    assert JobInv(j, s.jobs[j], Idle, s.store, s.docs);
    a := Apply(s, Dispatch(j, w, true));
    assert {} + {j} == {j};
  }

  /** A result the controller accepts: every check of the export branch and the worker's own. */
  predicate Acceptable(row: Row, result: StageResult) {
    result.stagingOnly && result.hourMatches && result.outputs != [] && Bytes(result.outputs) <= ExportCap(row.sourceBytes)
    && UniqueKeys(result.outputs)
    && forall i :: 0 <= i < |result.outputs| ==> result.outputs[i].key == ObjectKey(result.outputs[i].sha) && result.outputs[i].proven
  }

  /** A staged result, or one whose export failed, is exported again from the first output. */
  lemma ExportBegins(s: Sys, j: JobId, w: WorkerId, row: Row, root: Root) returns (t: Sys)
    requires At(s, j, w, row, Some(root), {}) && row.state.Submitted? && row.worker == w && row.exports < 3
    requires (root.state.Staged? || root.state.ExportFailed?) && Acceptable(row, root.state.result)
    ensures Ends(s, Cycle(j, ExportPost(w)), t) && t.store == s.store
    ensures At(t, j, w, row.(exports := row.exports + 1),
               Some(root.(state := Exporting(root.state.attempt, root.state.result), threads := {Copying(0, false)})), {j})
  {
    AsksForExport(s, j, w, row, root);
    hide At, Handle, Reconcile, Ends;
    t := CycleRuns(s, j, w, row, Some(root), ExportPost(w), row.(exports := row.exports + 1));
  }

  lemma AsksForExport(s: Sys, j: JobId, w: WorkerId, row: Row, root: Root)
    requires At(s, j, w, row, Some(root), {}) && row.state.Submitted? && row.worker == w && row.exports < 3
    requires (root.state.Staged? || root.state.ExportFailed?) && Acceptable(row, root.state.result)
    ensures var o := Reconcile(j, row, Some(root.state), true, true);
            o.row == row.(exports := row.exports + 1) && o.call.Sending? && o.call.job == j && o.call.msg == ExportPost(w)
    ensures var answer := Handle(j, s.jobs[j], {}, ExportPost(w), Open);
            answer.status == 202 && answer.active == {j}
            && answer.root == Some(root.(state := Exporting(root.state.attempt, root.state.result), threads := {Copying(0, false)}))
  {
    AtAttempt(s, j, w, row, root);
    hide Inv, Bytes, Reconcile;
    assert {} + {Copying(0, false)} == {Copying(0, false)} && {} + {j} == {j};
    CommitsExport(j, row, root.state);
  }

  lemma AtAttempt(s: Sys, j: JobId, w: WorkerId, row: Row, root: Root)
    requires At(s, j, w, row, Some(root), {}) && row.state.Submitted? && row.worker == w && root.state.HasResult()
    ensures root.state.attempt == row.attempt && root.threads == {}
  {
    IdleThreads(s, j, w);
    hide WorkerInv, OneSubmitted, OwnersExist, Execution, Threads, MediaKept, Delivery, ExportAccounting, Produced;
    assert JobInv(j, s.jobs[j], Idle, s.store, s.docs);
  }

  lemma CommitsExport(j: JobId, row: Row, x: WState)
    requires x.attempt == row.attempt && row.exports < 3 && (x.Staged? || x.ExportFailed?) && Acceptable(row, x.result)
    ensures var o := Reconcile(j, row, Some(x), true, true);
            o.row == row.(exports := row.exports + 1) && o.call.Sending? && o.call.job == j && o.call.msg == ExportPost(row.worker)
  {
    hide Bytes;
  }

  /** The steps of an undisturbed copy loop from output `i` on; an output already in the store is not written again. */
  function CopySteps(j: JobId, w: WorkerId, outputs: seq<Output>, i: nat, store: map<Key, Object>): seq<Step>
    requires i <= |outputs|
    decreases |outputs| - i
  {
    if i == |outputs| then [WorkOn(j, w, FinishCopy(i)), WorkOn(j, w, LeaveActive)]
    else
      var o := outputs[i];
      [WorkOn(j, w, Put(i))] + (if o.key in store then [] else [StorePut(o.key, Object(o.size, o.sha))]) + [WorkOn(j, w, Verify(i))]
      + CopySteps(j, w, outputs, i + 1, store[o.key := Object(o.size, o.sha)])
  }

  /** Nothing else is stored under the key of an output. */
  predicate Unspoiled(outputs: seq<Output>, store: map<Key, Object>) {
    forall i :: 0 <= i < |outputs| && outputs[i].key in store ==> store[outputs[i].key] == Object(outputs[i].size, outputs[i].sha)
  }

  /** What the copy loop starts output `i` from. */
  ghost predicate CopyingFrom(s: Sys, j: JobId, w: WorkerId, row: Row, root: Root, i: nat) {
    At(s, j, w, row, Some(root), {j}) && root.state.Exporting? && root.threads == {Copying(i, false)}
    && root.state.result.outputs != [] && i <= |root.state.result.outputs| && UniqueKeys(root.state.result.outputs)
    && root.state.attempt in root.disk
    && Unspoiled(root.state.result.outputs, s.store)
    && forall k :: 0 <= k < |root.state.result.outputs| ==> OnDisk(root.disk[root.state.attempt], root.state.result.outputs[k])
  }

  lemma StoreRuns(s: Sys, steps: seq<Step>, t: Sys, j: JobId, w: WorkerId, row: Row, root: Root, o: Output) returns (u: Sys)
    requires Ends(s, steps, t) && At(t, j, w, row, Some(root), {j}) && (o.key in t.store ==> t.store[o.key] == Object(o.size, o.sha))
    ensures Ends(s, steps + if o.key in t.store then [] else [StorePut(o.key, Object(o.size, o.sha))], u)
    ensures At(u, j, w, row, Some(root), {j}) && u.store == t.store[o.key := Object(o.size, o.sha)]
  {
    hide Inv, Ends;
    if o.key in t.store {
      u := t;
      assert steps + [] == steps;
    } else {
      var put := StorePut(o.key, Object(o.size, o.sha));
      u := Apply(t, put);
      StepHolds(t, put);
      OneStep(t, put);
      Chained(s, steps, t, [put], u);
    }
  }

  lemma CopiesOne(s: Sys, j: JobId, w: WorkerId, row: Row, root: Root, i: nat) returns (t: Sys)
    requires CopyingFrom(s, j, w, row, root, i) && i < |root.state.result.outputs|
    ensures var o := root.state.result.outputs[i];
            Ends(s, [WorkOn(j, w, Put(i))] + (if o.key in s.store then [] else [StorePut(o.key, Object(o.size, o.sha))])
                    + [WorkOn(j, w, Verify(i))], t)
            && t.store == s.store[o.key := Object(o.size, o.sha)]
    ensures CopyingFrom(t, j, w, row, root.(threads := {Copying(i + 1, false)}), i + 1)
  {
    hide At, Ends;
    var o := root.state.result.outputs[i];
    NoSteps(s);
    t := WorksOn(s, [], s, j, w, row, root, {j}, Put(i));
    var r := Worked(root, Put(i), s.store);
    assert r.threads == {Copying(i, true)};
    assert [] + [WorkOn(j, w, Put(i))] == [WorkOn(j, w, Put(i))];
    t := StoreRuns(s, [WorkOn(j, w, Put(i))], t, j, w, row, r, o);
    var steps := [WorkOn(j, w, Put(i))] + if o.key in s.store then [] else [StorePut(o.key, Object(o.size, o.sha))];
    var store := t.store;
    assert InStore([o], store);
    t := WorksOn(s, steps, t, j, w, row, r, {j}, Verify(i));
    assert Worked(r, Verify(i), store).threads == {Copying(i + 1, false)};
  }

  lemma {:induction false} CopiesAll(s: Sys, j: JobId, w: WorkerId, row: Row, root: Root, i: nat) returns (t: Sys)
    requires CopyingFrom(s, j, w, row, root, i)
    ensures Ends(s, CopySteps(j, w, root.state.result.outputs, i, s.store), t)
    ensures var x := root.state;
            At(t, j, w, row, Some(root.(state := Exported(x.attempt, x.result, ReceiptsOf(x.result.outputs)), threads := {})), {})
    decreases |root.state.result.outputs| - i
  {
    hide At, Ends;
    var outputs := root.state.result.outputs;
    if i == |outputs| {
      NoSteps(s);
      t := WorksOn(s, [], s, j, w, row, root, {j}, FinishCopy(i));
      var r := Worked(root, FinishCopy(i), s.store);
      assert r.threads == {Ending};
      t := WorksOn(s, [] + [WorkOn(j, w, FinishCopy(i))], t, j, w, row, r, {j}, LeaveActive);
      assert {j} - {j} == {} && {Ending} - {Ending} == {};
      assert [] + [WorkOn(j, w, FinishCopy(i))] + [WorkOn(j, w, LeaveActive)] == CopySteps(j, w, outputs, i, s.store);
    } else {
      var o := outputs[i];
      var first := [WorkOn(j, w, Put(i))] + (if o.key in s.store then [] else [StorePut(o.key, Object(o.size, o.sha))])
                   + [WorkOn(j, w, Verify(i))];
      var u := CopiesOne(s, j, w, row, root, i);
      t := CopiesAll(u, j, w, row, root.(threads := {Copying(i + 1, false)}), i + 1);
      Chained(s, first, u, CopySteps(j, w, outputs, i + 1, u.store), t);
    }
  }

  /** Dispatch, execution, export, copy, archive, release and final update, with nothing in the way. */
  function JobSteps(j: JobId, w: WorkerId, exit: Exit, store: map<Key, Object>): seq<Step>
    requires exit.result.Some?
  {
    [Dispatch(j, w, true)] + [Send, Deliver(j, JobPost(w, 1), true, Open), SettleReply] + ExecutionSteps(j, w, 1, exit)
    + Cycle(j, ExportPost(w)) + CopySteps(j, w, exit.result.value.outputs, 0, store) + ReplaySteps(j, w, false, false)
  }

  /**
   Main result. In any state the invariant holds for, a queued job given to a free worker is verified with the receipt
   of its outputs, if its runner exits cleanly with an acceptable result, the outputs are on disk, and the store holds
   nothing else under their keys.
   */
  lemma UndisturbedJobVerifies(s: Sys, j: JobId, w: WorkerId, exit: Exit)
    requires Inv(s) && s.call.Idle? && j in s.jobs && s.jobs[j].row.state.Queued?
    requires w in s.workers && s.workers[w] == Worker(true, {}) && NoneSubmitted(s, w)
    requires exit.clean && exit.result.Some? && Acceptable(s.jobs[j].row, exit.result.value)
    requires Unspoiled(exit.result.value.outputs, s.store)
    requires forall k :: 0 <= k < |exit.result.value.outputs| ==> OnDisk(exit.files, exit.result.value.outputs[k])
    ensures Completed(After(s, JobSteps(j, w, exit, s.store)), j, Summary(j, 1, ReceiptsOf(exit.result.value.outputs)))
  {
    QueuedRow(s, j);
    hide Inv, At, Ends, Completed, Acceptable, Unspoiled, OnDisk, NoneSubmitted, ReplaySteps, Cycle, CopySteps, ExecutionSteps;
    var row, result := s.jobs[j].row, exit.result.value;
    var row1 := row.(state := Submitted, worker := w, attempt := 1, submissions := 1);
    var first := [Dispatch(j, w, true)] + [Send, Deliver(j, JobPost(w, 1), true, Open), SettleReply];
    var a := FirstRuns(s, j, w, row);
    var b := ExecutionEnds(a, j, w, row1, Root(Accepted(1), {}, map[], map[], {ExecStart(1)}), exit);
    Chained(s, first, a, ExecutionSteps(j, w, 1, exit), b);
    var root := Root(Staged(1, result), {}, map[1 := exit], map[1 := exit.files], {});
    assert {} - {1} == {} && At(b, j, w, row1, Some(root), {});
    AcceptableAlso(row, row1, result);
    var c := ExportBegins(b, j, w, row1, root);
    var row2, root2 := row1.(exports := 1), root.(state := Exporting(1, result), threads := {Copying(0, false)});
    Chained(s, first + ExecutionSteps(j, w, 1, exit), b, Cycle(j, ExportPost(w)), c);
    CopiesFromFirst(c, j, w, row2, root2);
    var d := CopiesAll(c, j, w, row2, root2, 0);
    Chained(s, first + ExecutionSteps(j, w, 1, exit) + Cycle(j, ExportPost(w)), c, CopySteps(j, w, result.outputs, 0, s.store), d);
    DeliveredVerifies(d, j, w, row2, root2.(state := Exported(1, result, ReceiptsOf(result.outputs)), threads := {}));
    CompletesAfter(s, first + ExecutionSteps(j, w, 1, exit) + Cycle(j, ExportPost(w)) + CopySteps(j, w, result.outputs, 0, s.store), d,
                   ReplaySteps(j, w, false, false), j, Summary(j, 1, ReceiptsOf(result.outputs)));
  }

  lemma QueuedRow(s: Sys, j: JobId)
    requires Inv(s) && s.call.Idle? && j in s.jobs && s.jobs[j].row.state.Queued?
    ensures var row := s.jobs[j].row;
            row.attempt == 0 && row.submissions == 0 && row.exports == 0 && row.archives == 0 && row.receipts == map[]
  {
    assert JobInv(j, s.jobs[j], Idle, s.store, s.docs);
  }

  lemma AcceptableAlso(row: Row, row': Row, result: StageResult)
    requires Acceptable(row, result) && row'.sourceBytes == row.sourceBytes
    ensures Acceptable(row', result)
  {
  }

  lemma CopiesFromFirst(s: Sys, j: JobId, w: WorkerId, row: Row, root: Root)
    requires At(s, j, w, row, Some(root), {j}) && root.state.Exporting? && root.threads == {Copying(0, false)}
    requires Acceptable(row, root.state.result) && Unspoiled(root.state.result.outputs, s.store) && root.state.attempt in root.disk
    requires forall k :: 0 <= k < |root.state.result.outputs| ==> OnDisk(root.disk[root.state.attempt], root.state.result.outputs[k])
    ensures CopyingFrom(s, j, w, row, root, 0)
  {
  }

  lemma DeliveredVerifies(s: Sys, j: JobId, w: WorkerId, row: Row, root: Root)
    requires At(s, j, w, row, Some(root), {}) && row.state.Submitted? && row.worker == w && root.state.Exported?
    requires row.archives < 3 && row.attempt !in row.receipts
    ensures Completed(After(s, ReplaySteps(j, w, false, false)), j, Summary(j, row.attempt, ReceiptsOf(root.state.result.outputs)))
  {
    hide Inv, Completed, After, ReplaySteps;
    ReplayCompletes(s, j);
  }

  lemma CompletesAfter(s: Sys, steps: seq<Step>, t: Sys, rest: seq<Step>, j: JobId, receipt: Receipt)
    requires Ends(s, steps, t) && Completed(After(t, rest), j, receipt)
    ensures Completed(After(s, steps + rest), j, receipt)
  {
    hide Completed;
    AfterBoth(s, steps, rest);
  }

  // ----- what is given up -----

  /** An attempt that failed for good: its own failure, or an interruption with no attempt left. */
  predicate FailedForGood(x: WState) { x.Failed? && (!x.failure.WorkerRestarted? || x.attempt >= 3) }

  /** The terminal state a reconciliation gives a submitted row, if any, by what its worker has of the job. */
  ghost predicate HeldAs(state: RowState, row: Row, root: Option<Root>, idle: bool) {
    && (state.HeldSubmission? <==>
          row.submissions == 3 && if root.None? then idle else root.value.state.Restarted() && !FailedForGood(root.value.state))
    && (state.Held? <==>
          root.Some? && (FailedForGood(root.value.state)
                         || ((root.value.state.Staged? || root.value.state.ExportFailed?) && root.value.state.result.stagingOnly
                             && root.value.state.result.hourMatches && root.value.state.result.outputs == [])))
    && (state.HeldExport? <==> row.exports == 3 && root.Some? && (root.value.state.Staged? || root.value.state.ExportFailed?))
    && (state.HeldReceipt? <==>
          root.Some? && root.value.state.Delivered() && row.attempt !in row.receipts && row.archives == 3)
    && !state.HeldStructure? && !state.StagedVerified? && !state.Queued?
  }

  /** A reconciliation holds a row exactly for these reasons and leaves it submitted otherwise. */
  lemma HoldsExactly(s: Sys, j: JobId, w: WorkerId, row: Row, root: Option<Root>, active: set<JobId>, idle: bool, go: bool)
    requires At(s, j, w, row, root, active) && row.state.Submitted? && row.worker == w
    ensures var t := After(s, [Get(j), ReconcileRow(idle, go)]);
            t.Some? && j in t.value.jobs && HeldAs(t.value.jobs[j].row.state, row, root, idle)
  {
    hide WorkerInv, OneSubmitted, OwnersExist, HeldAs;
    assert JobInv(j, s.jobs[j], Idle, s.store, s.docs);
    HoldsRow(j, s.jobs[j], idle, go, s.store, s.docs);
    ReadsThenCommits(s, j, idle, go);
  }

  lemma ReadsThenCommits(s: Sys, j: JobId, idle: bool, go: bool)
    requires s.call.Idle? && j in s.jobs && s.jobs[j].row.state.Submitted? && s.jobs[j].row.worker in s.workers
    requires s.workers[s.jobs[j].row.worker].up
    ensures var t := After(s, [Get(j), ReconcileRow(idle, go)]);
            t.Some? && j in t.value.jobs
            && t.value.jobs[j].row == Reconcile(j, s.jobs[j].row, StateOn(s.jobs[j], s.jobs[j].row.worker), idle, go).row
  {
    hide Reconcile;
    OneStep(s, Get(j));
    var a := Apply(s, Get(j));
    OneStep(a, ReconcileRow(idle, go));
    Chained(s, [Get(j)], a, [ReconcileRow(idle, go)], Apply(a, ReconcileRow(idle, go)));
    assert [Get(j)] + [ReconcileRow(idle, go)] == [Get(j), ReconcileRow(idle, go)];
  }

  lemma HoldsRow(j: JobId, js: JobSt, idle: bool, go: bool, store: map<Key, Object>, docs: set<Doc>)
    requires JobInv(j, js, Idle, store, docs) && js.row.state.Submitted?
    ensures var root := RootOn(js, js.row.worker);
            HeldAs(Reconcile(j, js.row, StateOn(js, js.row.worker), idle, go).row.state, js.row, root, idle)
  {
    var row, w := js.row, js.row.worker;
    if w in js.roots {
      var x := js.roots[w].state;
      HeldFacts(j, js, js.roots[w], store, docs);
      if x.Delivered() { ReceiptsAccounted(x.result.outputs); }
    } else {
      assert row.attempt == 1;
    }
    hide JobInv, ReadbackAccounted, NamedAndProven, Bytes, Present;
  }

  lemma HeldFacts(j: JobId, js: JobSt, root: Root, store: map<Key, Object>, docs: set<Doc>)
    requires JobInv(j, js, Idle, store, docs) && js.row.state.Submitted? && js.row.worker in js.roots && js.roots[js.row.worker] == root
    ensures var row, x := js.row, root.state;
            1 <= row.attempt <= 3 && row.submissions <= 3 && row.exports <= 3 && row.archives <= 3
            && (x.attempt == row.attempt || (x.attempt + 1 == row.attempt && x.Restarted()))
            && (x.HasResult() ==> x.attempt == row.attempt)
            && (row.exports > 0 ==> x.HasResult() && Exportable(row, x.result))
            && (x.Delivered() ==> row.exports > 0 && UniqueKeys(x.result.outputs) && x.receipts == ReceiptsOf(x.result.outputs))
            && (row.attempt in row.receipts ==> x.Delivered() && row.receipts[row.attempt] == Summary(j, row.attempt, x.receipts))
  {
    hide Execution, Threads, MediaKept, Exportable, InStore;
  }
}
