/** A whole controller call, as the class performs it, is a run of the protocol from its idle state to its next. */
module ControllerRuns {
  import opened Wrappers
  import opened StagingTypes
  import opened WorkerProtocol
  import opened ControllerProtocol
  import opened StagingSystem
  import opened StagingInvariant
  import opened StagingSafety
  import opened StagingTheorems
  import opened StagingProgress
  import opened ControllerCalls
  import opened ControllerHost
  import opened Ledger

  function Rows(s: Sys): map<JobId, Row> { map j | j in s.jobs :: s.jobs[j].row }

  /** What the worker would answer to the POST now. */
  function AnswerTo(s: Sys, j: JobId, msg: Message, gate: Gate): nat
    requires j in s.jobs && msg.worker in s.workers
  {
    Handle(j, s.jobs[j], s.workers[msg.worker].active, msg, gate).status
  }

  ghost predicate CanAnswer(s: Sys, j: JobId, msg: Message, gate: Gate, status: nat) {
    j in s.jobs && msg.worker in s.workers && s.workers[msg.worker].up && AnswerTo(s, j, msg, gate) == status
  }

  /** The state of a call in `j` after some steps: its row and call, with every other row as it was. */
  ghost predicate Became(s: Sys, t: Option<Sys>, j: JobId, row: Row, call: Call) {
    t.Some? && t.value.call == call && j in s.jobs && t.value.jobs.Keys == s.jobs.Keys && t.value.workers.Keys == s.workers.Keys
    && t.value.jobs[j].row == row && (forall i :: i in s.jobs && i != j ==> t.value.jobs[i].row == s.jobs[i].row)
  }

  lemma BecameAfter(s: Sys, step: Step, rest: seq<Step>, j: JobId, row: Row, call: Call)
    requires Allowed(s, step) && j in Apply(s, step).jobs
    requires Became(s, Some(Apply(s, step)), j, Apply(s, step).jobs[j].row, Apply(s, step).call)
    requires Became(Apply(s, step), After(Apply(s, step), rest), j, row, call)
    ensures Became(s, After(s, [step] + rest), j, row, call)
  {
    hide Apply, Allowed, After;
    AfterStep(s, step, rest);
  }

  lemma Ended(s: Sys, j: JobId)
    requires j in s.jobs
    ensures Became(s, After(s, []), j, s.jobs[j].row, s.call)
  {
  }

  /** The call gives up, answered or not sent at all. */
  lemma GivesUp(s: Sys, j: JobId)
    requires j in s.jobs
    ensures Became(s, After(s, [GiveUp]), j, s.jobs[j].row, Idle)
  {
    Ended(Apply(s, GiveUp), j);
    assert [GiveUp] + [] == [GiveUp];
    BecameAfter(s, GiveUp, [], j, s.jobs[j].row, Idle);
  }

  lemma SendsAndGivesUp(s: Sys, j: JobId)
    requires j in s.jobs && s.call.Sending? && s.call.job == j
    ensures Became(s, After(s, [Send, GiveUp]), j, s.jobs[j].row, Idle)
  {
    GivesUp(Apply(s, Send), j);
    assert [Send] + [GiveUp] == [Send, GiveUp];
    BecameAfter(s, Send, [GiveUp], j, s.jobs[j].row, Idle);
  }

  /** A POST that is sent, answered by the worker and settled. */
  lemma SendsAndSettles(s: Sys, j: JobId, gate: Gate, status: nat)
    requires j in s.jobs && s.call.Sending? && s.call.job == j && CanAnswer(s, j, s.call.msg, gate, status)
    ensures var o := Settle(j, s.jobs[j].row, s.call.msg, s.call.priorAttempt, s.call.priorCount, status);
            Became(s, After(s, [Send, Deliver(j, s.call.msg, true, gate), SettleReply]), j, o.row, o.call)
  {
    hide Settle, Handle, Handled, Apply, Allowed, After, Became, CanAnswer;
    var msg := s.call.msg;
    SentAnswers(s, j, gate, status);
    var sent, step := Apply(s, Send), Deliver(j, s.call.msg, true, gate);
    var answered := Apply(sent, step);
    SentRow(s, sent, answered, j);
    var o := Settle(j, s.jobs[j].row, msg, s.call.priorAttempt, s.call.priorCount, status);
    Settles(answered, j);
    BecameAfter(sent, step, [SettleReply], j, o.row, o.call);
    assert [step] + [SettleReply] == [step, SettleReply];
    BecameAfter(s, Send, [step, SettleReply], j, o.row, o.call);
    assert [Send] + [step, SettleReply] == [Send, step, SettleReply];
  }

  lemma SentRow(s: Sys, sent: Sys, answered: Sys, j: JobId)
    requires j in s.jobs && Became(s, Some(sent), j, s.jobs[j].row, sent.call)
    requires Became(sent, Some(answered), j, s.jobs[j].row, answered.call)
    ensures j in sent.jobs && j in answered.jobs && sent.jobs[j].row == answered.jobs[j].row == s.jobs[j].row
  {
  }

  lemma Settles(s: Sys, j: JobId)
    requires j in s.jobs && s.call.Answered? && s.call.job == j
    ensures var o := Settle(j, s.jobs[j].row, s.call.msg, s.call.priorAttempt, s.call.priorCount, s.call.status);
            Became(s, After(s, [SettleReply]), j, o.row, o.call)
  {
    hide Settle;
    var o := Settle(j, s.jobs[j].row, s.call.msg, s.call.priorAttempt, s.call.priorCount, s.call.status);
    Ended(Apply(s, SettleReply), j);
    assert [SettleReply] + [] == [SettleReply];
    BecameAfter(s, SettleReply, [], j, o.row, o.call);
  }

  lemma SentAnswers(s: Sys, j: JobId, gate: Gate, status: nat)
    requires j in s.jobs && s.call.Sending? && s.call.job == j && CanAnswer(s, j, s.call.msg, gate, status)
    ensures var sent := Apply(s, Send); var step := Deliver(j, s.call.msg, true, gate);
            Allowed(s, Send) && Allowed(sent, step) && Apply(sent, step).call.Answered?
            && Apply(sent, step).call == Answered(j, s.call.msg, s.call.priorAttempt, s.call.priorCount, status)
            && Became(s, Some(sent), j, s.jobs[j].row, sent.call)
            && Became(sent, Some(Apply(sent, step)), j, s.jobs[j].row, Apply(sent, step).call)
  {
    hide Handle;
    var sent := Apply(s, Send);
    SameAnswer(j, s.jobs[j], sent.jobs[j], s.workers[s.call.msg.worker].active, s.call.msg, gate);
  }

  lemma SameAnswer(j: JobId, js: JobSt, js': JobSt, active: set<JobId>, msg: Message, gate: Gate)
    requires js'.roots == js.roots
    ensures Handle(j, js, active, msg, gate) == Handle(j, js', active, msg, gate)
  {
  }

  /** From the results file on: the release is confirmed by the worker, or the call ends without it. */
  function SaveSteps(j: JobId, w: WorkerId, released: bool, confirmed: bool): seq<Step> {
    [SaveResultFile]
    + if released then [FinishRow]
      else if confirmed then [Send, Deliver(j, ReleasePost(w), true, Open), SettleReply] + [FinishRow]
      else [Send, GiveUp]
  }

  lemma Finishes(s: Sys, j: JobId)
    requires j in s.jobs && s.call == Finishing(j) && s.jobs[j].row.saved.Some?
    ensures Became(s, After(s, [FinishRow]), j, Finish(s.jobs[j].row), Idle)
  {
    Ended(Apply(s, FinishRow), j);
    assert [FinishRow] + [] == [FinishRow];
    BecameAfter(s, FinishRow, [], j, Finish(s.jobs[j].row), Idle);
  }

  lemma BecameThen(s: Sys, a: seq<Step>, b: seq<Step>, j: JobId, row: Row, call: Call)
    requires After(s, a).Some? && j in After(s, a).value.jobs
    requires Became(s, After(s, a), j, After(s, a).value.jobs[j].row, After(s, a).value.call)
    requires Became(After(s, a).value, After(After(s, a).value, b), j, row, call)
    ensures Became(s, After(s, a + b), j, row, call)
  {
    hide After;
    AfterBoth(s, a, b);
  }

  lemma Saves(s: Sys, j: JobId, remote: WState, release: Reply)
    requires j in s.jobs && s.call == Archived(j, Some(remote)) && s.jobs[j].row.attempt in s.jobs[j].row.receipts
    requires release == Status(200) ==> CanAnswer(s, j, ReleasePost(s.jobs[j].row.worker), Open, 200)
    ensures Became(s, After(s, SaveSteps(j, s.jobs[j].row.worker, remote.Released?, release == Status(200))), j,
                   SaveAndRelease(j, s.jobs[j].row, remote, release), Idle)
  {
    var w, row := s.jobs[j].row.worker, s.jobs[j].row;
    var t := Apply(s, SaveResultFile);
    var saved := t.jobs[j].row;
    var rest := SaveSteps(j, w, remote.Released?, release == Status(200))[1..];
    assert SaveSteps(j, w, remote.Released?, release == Status(200)) == [SaveResultFile] + rest;
    assert Became(s, Some(t), j, saved, t.call);
    if remote.Released? {
      Finishes(t, j);
    } else if release == Status(200) {
      ReleaseSettles(s, t, j);
    } else {
      SendsAndGivesUp(t, j);
    }
    BecameAfter(s, SaveResultFile, rest, j, SaveAndRelease(j, row, remote, release), Idle);
  }

  lemma ReleaseSettles(s: Sys, t: Sys, j: JobId)
    requires j in s.jobs && j in t.jobs && t.jobs[j].roots == s.jobs[j].roots && t.workers == s.workers && t.jobs[j].row.saved.Some?
    requires t.call.Sending? && t.call.job == j && t.call.msg == ReleasePost(s.jobs[j].row.worker)
    requires CanAnswer(s, j, t.call.msg, Open, 200)
    ensures Became(t, After(t, [Send, Deliver(j, t.call.msg, true, Open), SettleReply] + [FinishRow]), j, Finish(t.jobs[j].row), Idle)
  {
    SameAnswer(j, s.jobs[j], t.jobs[j], s.workers[t.call.msg.worker].active, t.call.msg, Open);
    SendsAndSettles(t, j, Open, 200);
    hide After;
    var steps := [Send, Deliver(j, t.call.msg, true, Open), SettleReply];
    Finishes(After(t, steps).value, j);
    BecameThen(t, steps, [FinishRow], j, Finish(t.jobs[j].row), Idle);
  }

  /** The steps after the commit `o`. */
  function CarrySteps(j: JobId, o: Outcome, replies: Replies, gate: Gate): seq<Step> {
    var w := o.row.worker;
    match o.call
    case Sending(_, msg, _, _) =>
      if msg.JobPost? && replies.job.Status? then [Send, Deliver(j, msg, true, gate), SettleReply] else [Send, GiveUp]
    case Archiving(_, snap) =>
      if replies.archived && snap.Some? then [ArchiveConfirmed] + SaveSteps(j, w, snap.value.Released?, replies.release == Status(200))
      else [GiveUp]
    case Archived(_, snap) =>
      if snap.Some? then SaveSteps(j, w, snap.value.Released?, replies.release == Status(200)) else [GiveUp]
    case _ => []
  }

  /** The transport's answers are what the workers of `s` would answer. No answer is always possible. */
  ghost predicate Answerable(s: Sys, j: JobId, o: Outcome, replies: Replies, gate: Gate) {
    (o.call.Sending? && o.call.msg.JobPost? && replies.job.Status? ==> CanAnswer(s, j, o.call.msg, gate, replies.job.code))
    && (replies.release == Status(200) ==> CanAnswer(s, j, ReleasePost(o.row.worker), Open, 200))
  }

  /** What a reconciliation or a dispatch can commit to. */
  predicate Commits(j: JobId, o: Outcome) {
    match o.call
    case Idle => true
    case Sending(i, msg, _, _) => i == j && !msg.ReleasePost?
    case Archiving(i, snap) => i == j && snap.Some? && snap.value.Delivered()
    case Archived(i, snap) => i == j && snap.Some? && o.row.attempt in o.row.receipts
    case _ => false
  }

  lemma Carries(s: Sys, j: JobId, o: Outcome, replies: Replies, gate: Gate)
    requires j in s.jobs && s.call == o.call && s.jobs[j].row == o.row && Commits(j, o) && Answerable(s, j, o, replies, gate)
    ensures Became(s, After(s, CarrySteps(j, o, replies, gate)), j, Carried(j, o, replies), Idle)
  {
    hide SaveAndRelease, SaveSteps;
    match o.call {
      case Idle => Ended(s, j);
      case Sending(_, msg, _, _) =>
        if msg.JobPost? && replies.job.Status? {
          SendsAndSettles(s, j, gate, replies.job.code);
        } else {
          SendsAndGivesUp(s, j);
        }
      case Archiving(_, snap) => if replies.archived { Archives(s, j, snap.value, replies.release); } else { GivesUp(s, j); }
      case Archived(_, snap) => Saves(s, j, snap.value, replies.release);
      case _ =>
    }
  }

  lemma ArchiveCommits(s: Sys, j: JobId, remote: WState)
    requires j in s.jobs && remote.Delivered() && s.call == Archiving(j, Some(remote))
    ensures Allowed(s, ArchiveConfirmed)
    ensures var t := Apply(s, ArchiveConfirmed); var row := KeepReceipt(j, s.jobs[j].row, remote);
            j in t.jobs && t.jobs[j].row == row && t.call == Archived(j, Some(remote)) && Became(s, Some(t), j, row, t.call)
            && row.attempt in row.receipts && row.worker == s.jobs[j].row.worker
            && (CanAnswer(s, j, ReleasePost(row.worker), Open, 200) ==> CanAnswer(t, j, ReleasePost(row.worker), Open, 200))
  {
    hide Handle;
    var t, w := Apply(s, ArchiveConfirmed), s.jobs[j].row.worker;
    if w in s.workers {
      SameAnswer(j, s.jobs[j], t.jobs[j], s.workers[w].active, ReleasePost(w), Open);
    }
  }

  lemma Archives(s: Sys, j: JobId, remote: WState, release: Reply)
    requires j in s.jobs && remote.Delivered() && s.call == Archiving(j, Some(remote))
    requires release == Status(200) ==> CanAnswer(s, j, ReleasePost(s.jobs[j].row.worker), Open, 200)
    ensures var row := s.jobs[j].row;
            Became(s, After(s, [ArchiveConfirmed] + SaveSteps(j, row.worker, remote.Released?, release == Status(200))), j,
                   SaveAndRelease(j, KeepReceipt(j, row, remote), remote, release), Idle)
  {
    ArchiveCommits(s, j, remote);
    hide SaveAndRelease, SaveSteps, KeepReceipt, CanAnswer, Became, Apply, Allowed, After;
    var t := Apply(s, ArchiveConfirmed);
    Saves(t, j, remote, release);
    BecameAfter(s, ArchiveConfirmed, SaveSteps(j, s.jobs[j].row.worker, remote.Released?, release == Status(200)), j,
                SaveAndRelease(j, t.jobs[j].row, remote, release), Idle);
  }

  // ----- reconciliation -----

  /** The replies of one call are the ones the workers of `s` would give. */
  ghost predicate Realizable(s: Sys, j: JobId, replies: Replies, gate: Gate) {
    s.call.Idle? && j in s.jobs && s.jobs[j].row.state.Submitted?
    && (!replies.get.Unreachable? ==>
          var row := s.jobs[j].row; var snap := SnapOf(replies);
          row.worker in s.workers && s.workers[row.worker].up && StateOn(s.jobs[j], row.worker) == snap
          && Answerable(s, j, ControllerProtocol.Reconcile(j, row, snap, replies.idle, replies.probe.Go?), replies, gate))
  }

  function SnapOf(replies: Replies): Option<WState>
    requires !replies.get.Unreachable?
  {
    if replies.get.Missing? then None else Some(replies.get.state)
  }

  function ReconcileSteps(j: JobId, row: Row, replies: Replies, gate: Gate): seq<Step> {
    if replies.get.Unreachable? then []
    else
      [Get(j)] + ([StagingSystem.ReconcileRow(replies.idle, replies.probe.Go?)]
                  + CarrySteps(j, ControllerProtocol.Reconcile(j, row, SnapOf(replies), replies.idle, replies.probe.Go?), replies, gate))
  }

  lemma ReconcileCommits(j: JobId, row: Row, snap: Option<WState>, idle: bool, go: bool)
    ensures Commits(j, ControllerProtocol.Reconcile(j, row, snap, idle, go))
  {
    hide ReadbackAccounted, NamedAndProven, Bytes;
  }

  /** A whole `reconcile` call is a run of the system that leaves this row as the call does and every other alone. */
  lemma ReconcileIsRun(s: Sys, j: JobId, replies: Replies, gate: Gate)
    requires Realizable(s, j, replies, gate)
    ensures Became(s, After(s, ReconcileSteps(j, s.jobs[j].row, replies, gate)), j,
                   ControllerCalls.ReconcileRow(j, s.jobs[j].row, replies), Idle)
  {
    hide ControllerCalls.ReconcileRow, ControllerProtocol.Reconcile, CarrySteps, Carried, Handle;
    if replies.get.Unreachable? {
      Unreached(j, s.jobs[j].row, replies);
      Ended(s, j);
    } else {
      var row, snap := s.jobs[j].row, SnapOf(replies);
      var o := ControllerProtocol.Reconcile(j, row, snap, replies.idle, replies.probe.Go?);
      var step := StagingSystem.ReconcileRow(replies.idle, replies.probe.Go?);
      ReconcileIsProtocol(j, row, replies);
      ReconcileCommits(j, row, snap, replies.idle, replies.probe.Go?);
      var t := Apply(s, Get(j));
      var u := Apply(t, step);
      ReadsAndCommits(s, j, snap, replies.idle, replies.probe.Go?);
      hide Apply, Allowed, Became, After, Commits, Answerable;
      StillAnswerable(s, u, j, o, replies, gate);
      Carries(u, j, o, replies, gate);
      BecameAfter(t, step, CarrySteps(j, o, replies, gate), j, Carried(j, o, replies), Idle);
      BecameAfter(s, Get(j), [step] + CarrySteps(j, o, replies, gate), j, Carried(j, o, replies), Idle);
    }
  }

  lemma ReadsAndCommits(s: Sys, j: JobId, snap: Option<WState>, idle: bool, go: bool)
    requires s.call.Idle? && j in s.jobs && s.jobs[j].row.state.Submitted? && s.jobs[j].row.worker in s.workers
    requires s.workers[s.jobs[j].row.worker].up && StateOn(s.jobs[j], s.jobs[j].row.worker) == snap
    ensures Allowed(s, Get(j))
    ensures var t := Apply(s, Get(j)); var step := StagingSystem.ReconcileRow(idle, go);
            j in t.jobs && t.jobs[j].row == s.jobs[j].row && Became(s, Some(t), j, t.jobs[j].row, t.call) && Allowed(t, step)
            && var u := Apply(t, step); var o := ControllerProtocol.Reconcile(j, s.jobs[j].row, snap, idle, go);
            j in u.jobs && Became(t, Some(u), j, u.jobs[j].row, u.call) && u.call == o.call && u.jobs[j].row == o.row
            && u.jobs[j].roots == s.jobs[j].roots && u.workers == s.workers
  {
    hide ControllerProtocol.Reconcile;
  }

  lemma Unreached(j: JobId, row: Row, replies: Replies)
    requires replies.get.Unreachable?
    ensures ControllerCalls.ReconcileRow(j, row, replies) == row
  {
  }

  lemma StillAnswerable(s: Sys, t: Sys, j: JobId, o: Outcome, replies: Replies, gate: Gate)
    requires Answerable(s, j, o, replies, gate)
    requires j in s.jobs && j in t.jobs && t.jobs[j].roots == s.jobs[j].roots && t.workers == s.workers
    ensures Answerable(t, j, o, replies, gate)
  {
    if o.call.Sending? && o.call.msg.worker in s.workers {
      SameAnswer(j, s.jobs[j], t.jobs[j], s.workers[o.call.msg.worker].active, o.call.msg, gate);
    }
    if o.row.worker in s.workers {
      SameAnswer(j, s.jobs[j], t.jobs[j], s.workers[o.row.worker].active, ReleasePost(o.row.worker), Open);
    }
  }

  // ----- dispatch -----

  /** No worker and no directory changed. */
  ghost predicate SameWorkers(s: Sys, t: Sys) {
    t.workers == s.workers && t.jobs.Keys == s.jobs.Keys && forall i :: i in s.jobs ==> t.jobs[i].roots == s.jobs[i].roots
  }

  lemma {:induction false} RefusalKeeps(j: JobId, js: JobSt, active: set<JobId>, msg: Message, gate: Gate)
    requires msg.JobPost? && Refusal(Handle(j, js, active, msg, gate).status)
    ensures var answer := Handle(j, js, active, msg, gate); answer.active == active && Handled(js, msg, answer).roots == js.roots
  {
    if msg.worker in js.roots {
      assert js.roots[msg.worker := js.roots[msg.worker]] == js.roots;
    }
  }

  /** A refused POST leaves every worker as it was. */
  lemma RefusedKeepsWorkers(s: Sys, j: JobId, gate: Gate, status: nat)
    requires j in s.jobs && s.call.Sending? && s.call.job == j && CanAnswer(s, j, s.call.msg, gate, status)
    requires s.call.msg.JobPost? && Refusal(status)
    ensures var t := After(s, [Send, Deliver(j, s.call.msg, true, gate), SettleReply]); t.Some? && SameWorkers(s, t.value)
  {
    hide Settle, Handle, Handled, Became;
    var msg, w := s.call.msg, s.call.msg.worker;
    SentAnswers(s, j, gate, status);
    var sent, step := Apply(s, Send), Deliver(j, msg, true, gate);
    var answered := Apply(sent, step);
    SameAnswer(j, s.jobs[j], sent.jobs[j], s.workers[w].active, msg, gate);
    RefusalKeeps(j, sent.jobs[j], s.workers[w].active, msg, gate);
    assert s.workers[w := s.workers[w].(active := s.workers[w].active)] == s.workers;
    AfterStep(answered, SettleReply, []);
    AfterStep(sent, step, [SettleReply]);
    AfterStep(s, Send, [step, SettleReply]);
    assert [SettleReply] + [] == [SettleReply] && [step] + [SettleReply] == [step, SettleReply];
    assert [Send] + [step, SettleReply] == [Send, step, SettleReply];
  }

  /** Only the answer to the POST matters to a submission. */
  function Answering(reply: Reply): Replies {
    Replies(Unreachable, false, WorkerBusy, reply, NoReply, false, NoReply)
  }

  /** The steps of one row of the scan. */
  function TrySteps(j: JobId, row: Row, w: WorkerId, bound: real, screen: Screening, probe: Probe, reply: Reply, gate: Gate): seq<Step> {
    match screen
    case Failing => [HoldForStructure(j)]
    case Incomplete => []
    case Passing =>
      if bound + Usd(Reservation(row.sourceBytes)) + 5.0 >= 95.0 then []
      else [StagingSystem.Dispatch(j, w, probe.Go?)] + CarrySteps(j, BeginSubmit(j, row, w, 1, probe.Go?), Answering(reply), gate)
  }

  ghost predicate Startable(s: Sys, j: JobId, w: WorkerId, reply: Reply, gate: Gate) {
    s.call.Idle? && j in s.jobs && w in s.workers && s.jobs[j].row.state.Queued? && s.jobs[j].row.attempt == 0 && NoneSubmitted(s, w)
    && (reply.Status? ==> CanAnswer(s, j, JobPost(w, 1), gate, reply.code))
  }

  lemma SubmitCarried(j: JobId, row: Row, w: WorkerId, probe: Probe, reply: Reply)
    ensures var o := BeginSubmit(j, row, w, 1, probe.Go?);
            SubmitRow(j, row, w, 1, probe, reply) == Carried(j, o, Answering(reply)) && Commits(j, o)
            && (o.call.Sending? ==> o.call.msg == JobPost(w, 1))
  {
  }

  lemma DispatchBegins(s: Sys, j: JobId, w: WorkerId, go: bool)
    requires s.call.Idle? && j in s.jobs && w in s.workers && NoneSubmitted(s, w)
    requires s.jobs[j].row.state.Queued? && s.jobs[j].row.attempt == 0
    ensures Allowed(s, StagingSystem.Dispatch(j, w, go))
    ensures var t, o := Apply(s, StagingSystem.Dispatch(j, w, go)), BeginSubmit(j, s.jobs[j].row, w, 1, go);
            j in t.jobs && t.call == o.call && t.jobs[j].row == o.row && Became(s, Some(t), j, o.row, o.call) && SameWorkers(s, t)
  {
    hide BeginSubmit, NoneSubmitted;
  }

  lemma TryIsRun(s: Sys, j: JobId, w: WorkerId, bound: real, screen: Screening, probe: Probe, reply: Reply, gate: Gate)
    requires Startable(s, j, w, reply, gate)
    ensures var o := ScanRow(j, s.jobs[j].row, w, bound, screen, probe, reply);
            Became(s, After(s, TrySteps(j, s.jobs[j].row, w, bound, screen, probe, reply, gate)), j, o.row, Idle)
  {
    hide NoneSubmitted, Usd, Reservation, SubmitRow, BeginSubmit, CarrySteps, Carried, CanAnswer, After, Became, Allowed, Apply, Commits;
    var row := s.jobs[j].row;
    Ended(s, j);
    match screen {
      case Failing => HoldsStructure(s, j);
      case Incomplete =>
      case Passing =>
        SubmitCarried(j, row, w, probe, reply);
        DispatchBegins(s, j, w, probe.Go?);
        var t, o := Apply(s, StagingSystem.Dispatch(j, w, probe.Go?)), BeginSubmit(j, row, w, 1, probe.Go?);
        DispatchAnswers(s, t, j, w, o, reply, gate);
        Carries(t, j, o, Answering(reply), gate);
        BecameAfter(s, StagingSystem.Dispatch(j, w, probe.Go?), CarrySteps(j, o, Answering(reply), gate), j,
                    Carried(j, o, Answering(reply)), Idle);
    }
  }

  lemma HoldsStructure(s: Sys, j: JobId)
    requires s.call.Idle? && j in s.jobs && s.jobs[j].row.state.Queued?
    ensures Became(s, After(s, [HoldForStructure(j)]), j, s.jobs[j].row.(state := HeldStructure), Idle)
    ensures SameWorkers(s, After(s, [HoldForStructure(j)]).value)
  {
    Ended(Apply(s, HoldForStructure(j)), j);
    assert [HoldForStructure(j)] + [] == [HoldForStructure(j)];
    AfterStep(s, HoldForStructure(j), []);
    BecameAfter(s, HoldForStructure(j), [], j, s.jobs[j].row.(state := HeldStructure), Idle);
  }

  lemma DispatchAnswers(s: Sys, t: Sys, j: JobId, w: WorkerId, o: Outcome, reply: Reply, gate: Gate)
    requires j in s.jobs && SameWorkers(s, t) && (reply.Status? ==> CanAnswer(s, j, JobPost(w, 1), gate, reply.code))
    requires o.call.Sending? ==> o.call.msg == JobPost(w, 1)
    ensures Answerable(t, j, o, Answering(reply), gate)
  {
    if o.call.Sending? && w in s.workers {
      SameAnswer(j, s.jobs[j], t.jobs[j], s.workers[w].active, JobPost(w, 1), gate);
    }
  }

  /** Where the scan goes on, nothing but this row has changed and the worker is still free. */
  lemma TryContinues(s: Sys, j: JobId, w: WorkerId, bound: real, screen: Screening, probe: Probe, reply: Reply, gate: Gate)
    requires Startable(s, j, w, reply, gate) && !ScanRow(j, s.jobs[j].row, w, bound, screen, probe, reply).stop
    ensures var t := After(s, TrySteps(j, s.jobs[j].row, w, bound, screen, probe, reply, gate));
            t.Some? && SameWorkers(s, t.value) && NoneSubmitted(t.value, w)
  {
    TryIsRun(s, j, w, bound, screen, probe, reply, gate);
    TryWorkers(s, j, w, bound, screen, probe, reply, gate);
    DeferredFree(j, s.jobs[j].row, w, bound, screen, probe, reply);
    hide After, TrySteps, ScanRow, SameWorkers;
  }

  lemma DeferredFree(j: JobId, row: Row, w: WorkerId, bound: real, screen: Screening, probe: Probe, reply: Reply)
    requires row.state.Queued? && row.attempt == 0 && !ScanRow(j, row, w, bound, screen, probe, reply).stop
    ensures !ScanRow(j, row, w, bound, screen, probe, reply).row.state.Submitted?
  {
    hide Usd, Reservation;
  }

  lemma TryWorkers(s: Sys, j: JobId, w: WorkerId, bound: real, screen: Screening, probe: Probe, reply: Reply, gate: Gate)
    requires Startable(s, j, w, reply, gate) && !ScanRow(j, s.jobs[j].row, w, bound, screen, probe, reply).stop
    ensures var t := After(s, TrySteps(j, s.jobs[j].row, w, bound, screen, probe, reply, gate)); t.Some? && SameWorkers(s, t.value)
  {
    hide NoneSubmitted, Usd, Reservation, SubmitRow, CanAnswer, Became, Allowed, Apply;
    match screen {
      case Failing => HoldsStructure(s, j);
      case Incomplete =>
      case Passing => SubmitWorkers(s, j, w, probe, reply, gate);
    }
  }

  lemma SubmitWorkers(s: Sys, j: JobId, w: WorkerId, probe: Probe, reply: Reply, gate: Gate)
    requires Startable(s, j, w, reply, gate) && SubmitOutcome(s.jobs[j].row, probe, reply).Deferred?
    ensures var steps := [StagingSystem.Dispatch(j, w, probe.Go?)]
                         + CarrySteps(j, BeginSubmit(j, s.jobs[j].row, w, 1, probe.Go?), Answering(reply), gate);
            After(s, steps).Some? && SameWorkers(s, After(s, steps).value)
  {
    hide NoneSubmitted, CanAnswer, Became, Allowed, Apply;
    var row := s.jobs[j].row;
    var step, o := StagingSystem.Dispatch(j, w, probe.Go?), BeginSubmit(j, row, w, 1, probe.Go?);
    DispatchBegins(s, j, w, probe.Go?);
    var t := Apply(s, step);
    AfterStep(s, step, CarrySteps(j, o, Answering(reply), gate));
    DispatchAnswers(s, t, j, w, o, reply, gate);
    if o.call.Sending? {
      RefusedKeepsWorkers(t, j, gate, reply.code);
    }
  }

  // ----- the whole scan -----

  function ScanSteps(table: map<JobId, Row>, rows: seq<JobId>, w: WorkerId, bound: real, screen: JobId -> Screening,
                     probe: JobId -> Probe, reply: JobId -> Reply, gate: JobId -> Gate): seq<Step>
    requires forall i :: 0 <= i < |rows| ==> rows[i] in table
  {
    if rows == [] then []
    else
      var j := rows[0];
      var steps := TrySteps(j, table[j], w, bound, screen(j), probe(j), reply(j), gate(j));
      if ScanRow(j, table[j], w, bound, screen(j), probe(j), reply(j)).stop then steps
      else
        steps + ScanSteps(table[j := ScanRow(j, table[j], w, bound, screen(j), probe(j), reply(j)).row], rows[1..], w, bound, screen,
                          probe, reply, gate)
  }

  /** An idle controller, a free worker, distinct queued rows, and answers the worker would give. */
  ghost predicate ScanStart(s: Sys, rows: seq<JobId>, w: WorkerId, reply: JobId -> Reply, gate: JobId -> Gate) {
    s.call.Idle? && w in s.workers && NoneSubmitted(s, w)
    && (forall i :: 0 <= i < |rows| ==> Startable(s, rows[i], w, reply(rows[i]), gate(rows[i])))
    && (forall i, k :: 0 <= i < k < |rows| ==> rows[i] != rows[k])
  }

  lemma ScanOn(s: Sys, t: Sys, rows: seq<JobId>, w: WorkerId, reply: JobId -> Reply, gate: JobId -> Gate, row: Row)
    requires rows != [] && ScanStart(s, rows, w, reply, gate)
    requires Became(s, Some(t), rows[0], row, Idle) && SameWorkers(s, t) && NoneSubmitted(t, w)
    ensures ScanStart(t, rows[1..], w, reply, gate) && Rows(t) == Rows(s)[rows[0] := row]
  {
    hide NoneSubmitted;
    forall i | 0 <= i < |rows| - 1 ensures Startable(t, rows[1..][i], w, reply(rows[1..][i]), gate(rows[1..][i])) {
      var j := rows[i + 1];
      assert Startable(s, j, w, reply(j), gate(j)) && j != rows[0];
      SameAnswer(j, s.jobs[j], t.jobs[j], s.workers[w].active, JobPost(w, 1), gate(j));
    }
  }

  /** The scan of a `dispatch` call is a run of the system with the same rows at its end. */
  lemma {:induction false} ScanIsRun(s: Sys, rows: seq<JobId>, w: WorkerId, bound: real, screen: JobId -> Screening,
                                     probe: JobId -> Probe, reply: JobId -> Reply, gate: JobId -> Gate)
    requires ScanStart(s, rows, w, reply, gate)
    ensures forall i :: 0 <= i < |rows| ==> rows[i] in Rows(s)
    ensures var t := After(s, ScanSteps(Rows(s), rows, w, bound, screen, probe, reply, gate));
            t.Some? && t.value.call.Idle? && Rows(t.value) == Scan(Rows(s), rows, w, bound, screen, probe, reply)
    decreases |rows|
  {
    hide NoneSubmitted, TrySteps, ScanRow, CanAnswer, Apply, Allowed;
    forall i | 0 <= i < |rows| ensures rows[i] in Rows(s) {
      assert Startable(s, rows[i], w, reply(rows[i]), gate(rows[i]));
    }
    if rows != [] {
      var j := rows[0];
      assert Startable(s, j, w, reply(j), gate(j));
      var row := s.jobs[j].row;
      var steps := TrySteps(j, row, w, bound, screen(j), probe(j), reply(j), gate(j));
      var o := ScanRow(j, row, w, bound, screen(j), probe(j), reply(j));
      TryIsRun(s, j, w, bound, screen(j), probe(j), reply(j), gate(j));
      var t := After(s, steps).value;
      if o.stop {
        assert Rows(t) == Rows(s)[j := o.row];
      } else {
        TryContinues(s, j, w, bound, screen(j), probe(j), reply(j), gate(j));
        ScanOn(s, t, rows, w, reply, gate, o.row);
        ScanIsRun(t, rows[1..], w, bound, screen, probe, reply, gate);
        AfterBoth(s, steps, ScanSteps(Rows(t), rows[1..], w, bound, screen, probe, reply, gate));
      }
    }
  }

  // ----- the class and the invariant -----

  lemma {:induction false} AfterHolds(s: Sys, steps: seq<Step>)
    requires Inv(s) && After(s, steps).Some?
    ensures Inv(After(s, steps).value)
    decreases |steps|
  {
    hide Inv, Apply, Allowed;
    if steps != [] {
      StepHolds(s, steps[0]);
      AfterHolds(Apply(s, steps[0]), steps[1..]);
    }
  }

  /** A table the invariant holds for is still one after a whole `reconcile` call. */
  lemma ReconcileKeepsInvariant(s: Sys, j: JobId, replies: Replies, gate: Gate)
    requires Inv(s) && Realizable(s, j, replies, gate)
    ensures exists t :: Inv(t) && t.call.Idle? && Rows(t) == Rows(s)[j := ControllerCalls.ReconcileRow(j, Rows(s)[j], replies)]
  {
    hide Inv, Realizable, After, ReconcileSteps, ControllerCalls.ReconcileRow, StagingSystem.Apply;
    RealizableRow(s, j, replies, gate);
    ReconcileIsRun(s, j, replies, gate);
    var steps := ReconcileSteps(j, s.jobs[j].row, replies, gate);
    AfterHolds(s, steps);
    var t := After(s, steps).value;
    assert Rows(t) == Rows(s)[j := ControllerCalls.ReconcileRow(j, Rows(s)[j], replies)];
  }

  lemma RealizableRow(s: Sys, j: JobId, replies: Replies, gate: Gate)
    requires Realizable(s, j, replies, gate)
    ensures j in s.jobs && s.jobs[j].row.state.Submitted?
    ensures replies.get.State? ==>
              s.jobs[j].row.worker in s.jobs[j].roots && s.jobs[j].roots[s.jobs[j].row.worker].state == replies.get.state
  {
    hide ControllerProtocol.Reconcile, Answerable;
  }

  /** And after the scan of a whole `dispatch` call. */
  lemma DispatchKeepsInvariant(s: Sys, rows: seq<JobId>, w: WorkerId, bound: real, screen: JobId -> Screening,
                               probe: JobId -> Probe, reply: JobId -> Reply, gate: JobId -> Gate)
    requires Inv(s) && ScanStart(s, rows, w, reply, gate)
    ensures forall i :: 0 <= i < |rows| ==> rows[i] in Rows(s)
    ensures exists t :: Inv(t) && t.call.Idle? && Rows(t) == Scan(Rows(s), rows, w, bound, screen, probe, reply)
  {
    hide Inv, ScanStart, After, ScanSteps, Scan;
    ScanIsRun(s, rows, w, bound, screen, probe, reply, gate);
    AfterHolds(s, ScanSteps(Rows(s), rows, w, bound, screen, probe, reply, gate));
  }

  /** In a state the invariant holds for, what reconciliation reads and keeps is within the export cap. */
  lemma ReachableFits(s: Sys, j: JobId, replies: Replies, gate: Gate)
    requires Inv(s) && Realizable(s, j, replies, gate)
    ensures Fits(s.jobs[j].row, replies)
  {
    hide Realizable, JobInv, WorkerInv, OneSubmitted, OwnersExist;
    RealizableRow(s, j, replies, gate);
    JobFits(j, s.jobs[j], CallOn(s.call, j), replies, s.store, s.docs);
  }

  lemma JobFits(j: JobId, js: JobSt, call: Call, replies: Replies, store: map<Key, Object>, docs: set<Doc>)
    requires JobInv(j, js, call, store, docs) && js.row.state.Submitted?
    requires replies.get.State? ==> js.row.worker in js.roots && js.roots[js.row.worker].state == replies.get.state
    ensures Fits(js.row, replies)
  {
    if js.row.worker in js.roots && js.roots[js.row.worker].state.HasResult() {
      SameTotal(js.roots[js.row.worker].state.result.outputs);
    }
  }
}
