/** A run that loses the third archive upload: one job, one worker, one output. */
module StagingExample {
  import opened Wrappers
  import opened StagingTypes
  import opened WorkerProtocol
  import opened ControllerProtocol
  import opened StagingSystem
  import opened StagingProgress
  import opened StagingTheorems

  ghost predicate Reachable(s: Sys) {
    exists run: seq<Sys> :: IsRun(run) && run[|run| - 1] == s
  }

  lemma Starts(s: Sys)
    requires Init(s)
    ensures Reachable(s)
  {
    assert IsRun([s]) && [s][|[s]| - 1] == s;
  }

  lemma Goes(s: Sys, step: Step, t: Sys)
    requires Reachable(s) && Allowed(s, step) && Apply(s, step) == t
    ensures Reachable(t)
  {
    var run: seq<Sys> :| IsRun(run) && run[|run| - 1] == s;
    var longer := run + [t];
    assert Next(s, t);
    forall i | 0 < i < |longer| ensures Next(longer[i - 1], longer[i]) {
      assert i < |run| ==> longer[i - 1] == run[i - 1] && longer[i] == run[i];
    }
    assert longer[|longer| - 1] == t;
  }

  const OUTPUT := Output(ObjectKey(7), 1, 7, true)
  const RESULT := StageResult(true, true, [OUTPUT])
  const FILES: map<Key, Object> := map[ObjectKey(7) := Object(1, 7)]
  const ENDED := Exit(true, Some(RESULT), FILES)

  function TheRow(state: RowState, submissions: nat, exports: nat, archives: nat): Row {
    Row(state, 0, submissions, 1, submissions, exports, archives, map[], None, None)
  }

  function World(js: JobSt, active: set<JobId>, store: map<Key, Object>, call: Call): Sys {
    Sys(map[0 := js], map[0 := Worker(true, active)], store, {}, call)
  }

  /** A thread step of the job. */
  lemma Works(js: JobSt, active: set<JobId>, store: map<Key, Object>, work: WorkStep)
    requires Reachable(World(js, active, store, Idle)) && 0 in js.roots && Enabled(js.roots[0], work, store)
    ensures Reachable(World(Work(js, 0, work, store), if work.LeaveActive? then active - {0} else active, store, Idle))
  {
    hide Enabled, Work, Reachable;
    var s := World(js, active, store, Idle);
    var t := World(Work(js, 0, work, store), if work.LeaveActive? then active - {0} else active, store, Idle);
    assert Apply(s, WorkOn(0, 0, work)).jobs == t.jobs && Apply(s, WorkOn(0, 0, work)).workers == t.workers;
    Goes(s, WorkOn(0, 0, work), t);
  }

  /** A controller step that writes the row or only moves the call. */
  lemma Writes(js: JobSt, active: set<JobId>, store: map<Key, Object>, call: Call, step: Step, row: Row, call': Call)
    requires Reachable(World(js, active, store, call)) && Allowed(World(js, active, store, call), step)
    requires var s := World(js, active, store, call); Apply(s, step) == WithRow(s, 0, row, call')
    ensures Reachable(World(js.(row := row), active, store, call'))
  {
    hide Allowed, Apply, Reachable;
    var s, t := World(js, active, store, call), World(js.(row := row), active, store, call');
    assert WithRow(s, 0, row, call').jobs == t.jobs;
    Goes(s, step, t);
  }

  /** The awaited POST is sent, handled and answered. */
  lemma Posts(js: JobSt, store: map<Key, Object>, msg: Message, prior: nat, count: nat)
    requires Reachable(World(js, {}, store, Sending(0, msg, prior, count))) && msg.worker == 0 && js.posts == multiset{}
    requires Handle(0, js, {}, msg, Open).status == 202 && !msg.ReleasePost?
    ensures var answer := Handle(0, js, {}, msg, Open); var js' := Handled(js.(posts := multiset{msg}), msg, answer);
            Reachable(World(js', answer.active, store, Idle))
  {
    hide Reachable;
    var s, posted := World(js, {}, store, Sending(0, msg, prior, count)), js.(posts := multiset{msg});
    var t := World(posted, {}, store, Waiting(0, msg, prior, count));
    assert js.posts + multiset{msg} == multiset{msg};
    assert Apply(s, Send).jobs == t.jobs;
    Goes(s, Send, t);
    Delivers(posted, store, msg, prior, count);
  }

  lemma Delivers(js: JobSt, store: map<Key, Object>, msg: Message, prior: nat, count: nat)
    requires Reachable(World(js, {}, store, Waiting(0, msg, prior, count))) && msg.worker == 0 && js.posts == multiset{msg}
    requires Handle(0, js, {}, msg, Open).status == 202 && !msg.ReleasePost?
    ensures var answer := Handle(0, js, {}, msg, Open); Reachable(World(Handled(js, msg, answer), answer.active, store, Idle))
  {
    hide Reachable, Handle, Handled;
    var s, answer := World(js, {}, store, Waiting(0, msg, prior, count)), Handle(0, js, {}, msg, Open);
    var js' := Handled(js, msg, answer);
    var t := World(js', answer.active, store, Answered(0, msg, prior, count, 202));
    var step := Deliver(0, msg, true, Open);
    assert Apply(s, step).jobs == t.jobs && Apply(s, step).workers == t.workers;
    Goes(s, step, t);
    Writes(js', answer.active, store, t.call, SettleReply, js'.row, Idle);
  }

  /** What is known between the stages: a quiet system, the row, and the owner's directory. */
  ghost predicate Quiet(js: JobSt, row: Row, state: WState) {
    js.row == row && js.posts == multiset{} && js.roots.Keys == {0} && js.roots[0].state == state && js.roots[0].threads == {}
    && js.roots[0].disk == map[1 := FILES]
  }

  lemma Submits() returns (js: JobSt)
    ensures Reachable(World(js, {0}, map[], Idle)) && js.row == TheRow(Submitted, 1, 0, 0) && js.posts == multiset{}
    ensures js.roots.Keys == {0} && js.roots[0] == Root(Accepted(1), {}, map[], map[], {ExecStart(1)})
  {
    hide Reachable;
    var queued := JobSt(TheRow(Queued, 0, 0, 0), multiset{}, map[], multiset{}, 0, 0);
    var row, msg := TheRow(Submitted, 1, 0, 0), JobPost(0, 1);
    Starts(World(queued, {}, map[], Idle));
    Writes(queued, {}, map[], Idle, Dispatch(0, 0, true), row, Sending(0, msg, 0, 0));
    Posts(queued.(row := row), map[], msg, 0, 0);
    js := Handled(queued.(row := row, posts := multiset{msg}), msg, Handle(0, queued.(row := row), {}, msg, Open));
    assert {} + {0} == {0};
  }

  lemma Launches() returns (js: JobSt)
    ensures Reachable(World(js, {0}, map[], Idle)) && js.row == TheRow(Submitted, 1, 0, 0) && js.posts == multiset{}
    ensures js.roots.Keys == {0} && js.roots[0] == Root(Running(1), {1}, map[], map[], {ExecWait(1)})
  {
    hide Reachable;
    js := Submits();
    Works(js, {0}, map[], Begin(1));
    js := Work(js, 0, Begin(1), map[]);
    assert js.roots[0].threads == {ExecSpawn(1)};
    Works(js, {0}, map[], Launch(1));
    js := Work(js, 0, Launch(1), map[]);
    assert js.roots[0].threads == {ExecWait(1)} && js.roots[0].live == {1};
  }

  lemma Executes() returns (js: JobSt)
    ensures Reachable(World(js, {}, map[], Idle)) && Quiet(js, TheRow(Submitted, 1, 0, 0), Staged(1, RESULT))
  {
    hide Reachable;
    js := Launches();
    Works(js, {0}, map[], RunnerExits(1, ENDED));
    js := Work(js, 0, RunnerExits(1, ENDED), map[]);
    Works(js, {0}, map[], FinishExec(1));
    js := Work(js, 0, FinishExec(1), map[]);
    assert js.roots[0].threads == {Ending};
    Works(js, {0}, map[], LeaveActive);
    js := Work(js, 0, LeaveActive, map[]);
    assert {0} - {0} == {};
  }

  lemma AsksForExport() returns (js: JobSt)
    ensures Reachable(World(js, {0}, map[], Idle)) && js.row == TheRow(Submitted, 1, 1, 0) && js.posts == multiset{}
    ensures js.roots.Keys == {0} && js.roots[0].state == Exporting(1, RESULT) && js.roots[0].threads == {Copying(0, false)}
    ensures js.roots[0].disk == map[1 := FILES]
  {
    hide Reachable;
    js := Executes();
    var x, row := js.roots[0].state, TheRow(Submitted, 1, 1, 0);
    Writes(js, {}, map[], Idle, Get(0), js.row, Reading(0, Some(x)));
    BytesOfOne();
    Writes(js, {}, map[], Reading(0, Some(x)), ReconcileRow(true, true), row, Sending(0, ExportPost(0), 1, 0));
    js := js.(row := row);
    Posts(js, map[], ExportPost(0), 1, 0);
    js := Handled(js.(posts := multiset{ExportPost(0)}), ExportPost(0), Handle(0, js, {}, ExportPost(0), Open));
    assert {} + {0} == {0};
  }

  lemma BytesOfOne()
    ensures Bytes([OUTPUT]) == 1
  {
    assert [OUTPUT][..0] == [];
  }

  lemma Puts() returns (js: JobSt)
    ensures Reachable(World(js, {0}, FILES, Idle)) && js.row == TheRow(Submitted, 1, 1, 0) && js.posts == multiset{}
    ensures js.roots.Keys == {0} && js.roots[0].state == Exporting(1, RESULT) && js.roots[0].threads == {Copying(0, true)}
    ensures js.roots[0].disk == map[1 := FILES]
  {
    hide Reachable;
    js := AsksForExport();
    Works(js, {0}, map[], Put(0));
    js := Work(js, 0, Put(0), map[]);
    assert js.roots[0].threads == {Copying(0, true)};
    var s := World(js, {0}, map[], Idle);
    assert Apply(s, StorePut(ObjectKey(7), Object(1, 7))).store == FILES;
    Goes(s, StorePut(ObjectKey(7), Object(1, 7)), World(js, {0}, FILES, Idle));
  }

  lemma Exports() returns (js: JobSt)
    ensures Reachable(World(js, {}, FILES, Idle))
    ensures Quiet(js, TheRow(Submitted, 1, 1, 0), Exported(1, RESULT, ReceiptsOf([OUTPUT])))
  {
    hide Reachable;
    js := Puts();
    Works(js, {0}, FILES, Verify(0));
    js := Work(js, 0, Verify(0), FILES);
    assert js.roots[0].threads == {Copying(1, false)};
    Works(js, {0}, FILES, FinishCopy(1));
    js := Work(js, 0, FinishCopy(1), FILES);
    assert js.roots[0].threads == {Ending};
    Works(js, {0}, FILES, LeaveActive);
    js := Work(js, 0, LeaveActive, FILES);
    assert {0} - {0} == {};
  }

  /** An upload is counted, and the controller is gone before it is confirmed. */
  lemma LosesUpload(js: JobSt, archives: nat) returns (js': JobSt)
    requires archives < 3 && Reachable(World(js, {}, FILES, Idle))
    requires Quiet(js, TheRow(Submitted, 1, 1, archives), Exported(1, RESULT, ReceiptsOf([OUTPUT])))
    ensures Reachable(World(js', {}, FILES, Idle))
    ensures Quiet(js', TheRow(Submitted, 1, 1, archives + 1), Exported(1, RESULT, ReceiptsOf([OUTPUT])))
  {
    hide Reachable;
    var x, row := js.roots[0].state, TheRow(Submitted, 1, 1, archives + 1);
    ReceiptsAccounted([OUTPUT]);
    Writes(js, {}, FILES, Idle, Get(0), js.row, Reading(0, Some(x)));
    Writes(js, {}, FILES, Reading(0, Some(x)), ReconcileRow(true, true), row, Archiving(0, Some(x)));
    js' := js.(row := row);
    Writes(js', {}, FILES, Archiving(0, Some(x)), GiveUp, row, Idle);
  }

  /** A run that ends with the third upload lost: the delivered job cannot be verified any more. */
  lemma ThirdUploadLost()
    ensures exists run: seq<Sys> ::
              IsRun(run) && var s := run[|run| - 1]; AtDelivery(s, 0) && !CanArchive(s.jobs[0].row)
  {
    var js := Exports();
    for archives := 0 to 3
      invariant Reachable(World(js, {}, FILES, Idle))
      invariant Quiet(js, TheRow(Submitted, 1, 1, archives), Exported(1, RESULT, ReceiptsOf([OUTPUT])))
    {
      js := LosesUpload(js, archives);
    }
    var run: seq<Sys> :| IsRun(run) && run[|run| - 1] == World(js, {}, FILES, Idle);
  }
}
