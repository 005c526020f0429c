/** Every worker step, POST delivery, crash and restart keeps the invariant of the job it touches. */
module WorkerSteps {
  import opened Wrappers
  import opened StagingTypes
  import opened WorkerProtocol
  import opened ControllerProtocol
  import opened StagingSystem
  import opened StagingInvariant

  /** The controller's call after a POST about this job was answered. */
  function CallAfter(call: Call, awaited: bool, status: nat): Call
    requires awaited ==> call.Waiting?
  {
    if awaited then Answered(call.job, call.msg, call.priorAttempt, call.priorCount, status) else call
  }

  ghost predicate Consumable(js: JobSt, call: Call, msg: Message, awaited: bool) {
    msg in js.posts
    && if awaited then call.Waiting? && call.msg == msg else call.Waiting? && call.msg == msg ==> js.posts[msg] > 1
  }

  function Taken(js: JobSt, msg: Message): JobSt { js.(posts := js.posts - multiset{msg}) }

  lemma TakenPosts(js: JobSt, msg: Message)
    requires OneOwner(js) && Bounded(js.row) && msg in js.posts
    ensures OneOwner(Taken(js, msg))
    ensures JobPosts(Taken(js, msg)) == JobPosts(js) - (if msg.JobPost? then 1 else 0)
    ensures forall m :: Taken(js, msg).posts[m] == js.posts[m] - (if m == msg then 1 else 0)
  {
  }

  lemma TakenCall(js: JobSt, call: Call, msg: Message, awaited: bool, status: nat)
    requires OneOwner(js) && Bounded(js.row) && JobPosts(js) <= js.row.submissions
    requires CallFits(js, call) && Consumable(js, call, msg, awaited)
    requires msg.ReleasePost? && status == 200 ==> js.row.worker in js.roots && js.roots[js.row.worker].state.Released?
    ensures CallFits(Taken(js, msg), CallAfter(call, awaited, status))
  {
    TakenPosts(js, msg);
    if call.Waiting? && msg.JobPost? && call.msg == msg && call.priorAttempt == 0 && js.row.attempt == 1 && !awaited {
      assert js.posts[msg] > 1;
    }
  }

  lemma TakenPresent(j: JobId, js: JobSt, root: Root, call: Call, msg: Message, awaited: bool, status: nat,
                     store: map<Key, Object>, docs: set<Doc>)
    requires Present(j, js, root, call, store, docs) && OneOwner(js) && Bounded(js.row) && Consumable(js, call, msg, awaited)
    ensures Present(j, Taken(js, msg), root, CallAfter(call, awaited, status), store, docs)
  {
    TakenPosts(js, msg);
  }

  /** A POST that changes no directory. */
  lemma AnswerKeeps(j: JobId, js: JobSt, call: Call, msg: Message, awaited: bool, status: nat,
                    store: map<Key, Object>, docs: set<Doc>)
    requires JobInv(j, js, call, store, docs) && Consumable(js, call, msg, awaited)
    requires msg.ReleasePost? && status == 200 ==> js.row.worker in js.roots && js.roots[js.row.worker].state.Released?
    ensures JobInv(j, Taken(js, msg), CallAfter(call, awaited, status), store, docs)
  {
    TakenPosts(js, msg);
    if !call.Idle? { TakenCall(js, call, msg, awaited, status); }
    if js.row.worker in js.roots {
      TakenPresent(j, js, js.roots[js.row.worker], call, msg, awaited, status, store, docs);
    }
  }

  /** Only the row's own attempt can be admitted, and only where its predecessor was interrupted. */
  lemma AdmitShape(j: JobId, js: JobSt, call: Call, w: WorkerId, a: nat, active: set<JobId>,
                   store: map<Key, Object>, docs: set<Doc>)
    requires JobInv(j, js, call, store, docs) && JobPost(w, a) in js.posts
    requires PostJob(RootOn(js, w), active, j, a, Open).status == 202
    ensures w == js.row.worker && a == js.row.attempt && js.roots.Keys <= {w} && js.row.exports == 0
    ensures if w in js.roots then js.roots[w].state == Failed(a - 1, WorkerRestarted) else a == 1 && js.roots == map[]
  {
  }

  lemma AdmitCall(j: JobId, js: JobSt, call: Call, w: WorkerId, a: nat, awaited: bool, root: Root,
                  store: map<Key, Object>, docs: set<Doc>)
    requires JobInv(j, js, call, store, docs) && Consumable(js, call, JobPost(w, a), awaited) && !call.Idle?
    requires w == js.row.worker && a == js.row.attempt && js.roots.Keys <= {w} && js.row.exports == 0
    requires if w in js.roots then js.roots[w].state == Failed(a - 1, WorkerRestarted) else a == 1 && js.roots == map[]
    requires root.state == Accepted(a)
    ensures CallFits(Taken(js, JobPost(w, a)).(roots := js.roots[w := root]), CallAfter(call, awaited, 202))
  {
  }

  lemma AdmitPresent(j: JobId, js: JobSt, call: Call, w: WorkerId, a: nat, store: map<Key, Object>, docs: set<Doc>)
    requires JobInv(j, js, call, store, docs) && !js.row.state.Queued? && !js.row.state.HeldStructure?
    requires w == js.row.worker && a == js.row.attempt && js.roots.Keys <= {w} && js.row.exports == 0
    requires if w in js.roots then js.roots[w].state == Failed(a - 1, WorkerRestarted) else a == 1 && js.roots == map[]
    requires w in js.roots ==> js.roots[w].threads == {}
    ensures var root := Admit(RootOn(js, w), a);
            Present(j, js.(roots := js.roots[w := root]), root, call, store, docs)
  {
    var root := Admit(RootOn(js, w), a);
    assert root.threads == {ExecStart(a)};
    if w in js.roots {
      assert Execution(js.roots[w], js.spawned);
      assert js.roots[w].live == {};
    }
  }

  lemma AdmitRow(j: JobId, js: JobSt, call: Call, w: WorkerId, a: nat, store: map<Key, Object>, docs: set<Doc>)
    requires JobInv(j, js, call, store, docs) && JobPost(w, a) in js.posts
    ensures !js.row.state.Queued? && !js.row.state.HeldStructure?
  {
  }

  lemma HandledAdmits(j: JobId, js: JobSt, w: WorkerId, a: nat, active: set<JobId>)
    requires PostJob(RootOn(js, w), active, j, a, Open).status == 202
    ensures Handled(js, JobPost(w, a), PostJob(RootOn(js, w), active, j, a, Open))
            == Taken(js, JobPost(w, a)).(roots := js.roots[w := Admit(RootOn(js, w), a)])
    ensures RootOn(Taken(js, JobPost(w, a)), w) == RootOn(js, w)
  {
  }

  /** A directory that fits, put in place of the owner's old one or where there was none. */
  lemma PutsPresent(j: JobId, js: JobSt, js': JobSt, w: WorkerId, root: Root, call: Call, store: map<Key, Object>, docs: set<Doc>)
    requires JobInv(j, js, call, store, docs) && !js.row.state.Queued? && !js.row.state.HeldStructure?
    requires w == js.row.worker && js.roots.Keys <= {w} && js' == js.(roots := js.roots[w := root], runs := js'.runs)
    requires Present(j, js', root, call, store, docs)
    requires !call.Idle? ==> CallFits(js', call)
    ensures JobInv(j, js', call, store, docs)
  {
    hide Present, CallFits, Absent, Bounded;
  }

  lemma AdmitKeeps(j: JobId, js: JobSt, call: Call, w: WorkerId, a: nat, awaited: bool, active: set<JobId>,
                   store: map<Key, Object>, docs: set<Doc>)
    requires JobInv(j, js, call, store, docs) && Consumable(js, call, JobPost(w, a), awaited)
    requires PostJob(RootOn(js, w), active, j, a, Open).status == 202
    requires w in js.roots ==> js.roots[w].threads == {}
    ensures var answer := PostJob(RootOn(js, w), active, j, a, Open);
            JobInv(j, Handled(js, JobPost(w, a), answer), CallAfter(call, awaited, 202), store, docs)
  {
    AdmitShape(j, js, call, w, a, active, store, docs) by { ConsumablePost(js, call, JobPost(w, a), awaited); }
    AdmitRow(j, js, call, w, a, store, docs) by { ConsumablePost(js, call, JobPost(w, a), awaited); }
    hide JobInv, Present, CallFits, PostJob, Handled, Admit;
    var taken := Taken(js, JobPost(w, a));
    var root := Admit(RootOn(js, w), a);
    AnswerKeeps(j, js, call, JobPost(w, a), awaited, 202, store, docs);
    HandledAdmits(j, js, w, a, active);
    AdmitPresent(j, taken, CallAfter(call, awaited, 202), w, a, store, docs);
    AdmittedState(RootOn(js, w), a);
    if !call.Idle? { AdmitCall(j, js, call, w, a, awaited, root, store, docs); }
    PutsPresent(j, taken, taken.(roots := js.roots[w := root]), w, root, CallAfter(call, awaited, 202), store, docs);
  }

  lemma ConsumablePost(js: JobSt, call: Call, msg: Message, awaited: bool)
    requires Consumable(js, call, msg, awaited)
    ensures msg in js.posts
  {
  }

  lemma AdmittedState(root: Option<Root>, a: nat)
    ensures Admit(root, a).state == Accepted(a)
  {
  }

  /** The directory once an export has begun. */
  function Begun(root: Root): Root
    requires root.state.HasResult()
  {
    root.(state := Exporting(root.state.attempt, root.state.result), threads := {Copying(0, false)})
  }

  lemma ExportBeginCovered(js: JobSt, root: Root)
    requires root.state.HasResult() && SentCovered(js, root) && root.threads == {}
    ensures SentCovered(js.(runs := js.runs + 1), Begun(root))
  {
    assert root.state.result.outputs[..0] == [];
    assert Times(js.runs + 1, Bytes(root.state.result.outputs))
           == Times(js.runs, Bytes(root.state.result.outputs)) + Bytes(root.state.result.outputs);
  }

  lemma ExportBeginAccounts(js: JobSt, root: Root, call: Call, awaited: bool)
    requires ExportAccounting(js, root, call) && Consumable(js, call, ExportPost(js.row.worker), awaited)
    requires root.threads == {} && (root.state.Staged? || root.state.ExportFailed?) && UniqueKeys(root.state.result.outputs)
    ensures ExportAccounting(Taken(js, ExportPost(js.row.worker)).(runs := js.runs + 1), Begun(root), CallAfter(call, awaited, 202))
  {
    ExportBeginCovered(js, root);
    hide Exportable, UniqueKeys, Times, Bytes;
  }

  lemma BegunRoot(row: Row, root: Root, spawned: multiset<nat>, store: map<Key, Object>)
    requires Lockstep(row, root.state) && Execution(root, spawned) && Produced(row, root) && MediaKept(row, root)
    requires root.state.Staged? || root.state.ExportFailed?
    ensures Lockstep(row, Begun(root).state) && Execution(Begun(root), spawned) && Produced(row, Begun(root))
    ensures MediaKept(row, Begun(root)) && Threads(Begun(root), spawned, store)
  {
    assert root.state.result.outputs[..0] == [];
  }

  /** The worker begins an export: one POST fewer in flight, one run more. */
  lemma ExportBeginPresent(j: JobId, js: JobSt, root: Root, call: Call, awaited: bool, store: map<Key, Object>, docs: set<Doc>)
    requires Present(j, js, root, call, store, docs) && OneOwner(js) && Bounded(js.row)
    requires Consumable(js, call, ExportPost(js.row.worker), awaited)
    requires root.threads == {} && (root.state.Staged? || root.state.ExportFailed?) && UniqueKeys(root.state.result.outputs)
    ensures Present(j, Taken(js, ExportPost(js.row.worker)).(runs := js.runs + 1), Begun(root), CallAfter(call, awaited, 202), store, docs)
  {
    TakenPosts(js, ExportPost(js.row.worker));
    ExportBeginAccounts(js, root, call, awaited);
    BegunRoot(js.row, root, js.spawned, store);
    hide ExportAccounting, UniqueKeys, Bounded, CallAfter, Execution, Threads, Produced, MediaKept, Lockstep;
  }

  /** `Present` looks at the given directory, not at where it is kept. */
  lemma PresentElsewhere(j: JobId, js: JobSt, js': JobSt, root: Root, call: Call, store: map<Key, Object>, docs: set<Doc>)
    requires Present(j, js, root, call, store, docs) && js' == js.(roots := js'.roots)
    ensures Present(j, js', root, call, store, docs)
  {
  }

  lemma ExportBeginKeeps(j: JobId, js: JobSt, call: Call, w: WorkerId, awaited: bool, active: set<JobId>,
                         store: map<Key, Object>, docs: set<Doc>)
    requires JobInv(j, js, call, store, docs) && Consumable(js, call, ExportPost(w), awaited)
    requires PostExport(RootOn(js, w), active, j).status == 202
    requires w in js.roots ==> js.roots[w].threads == {}
    ensures var answer := PostExport(RootOn(js, w), active, j);
            JobInv(j, Handled(js, ExportPost(w), answer), CallAfter(call, awaited, 202), store, docs)
  {
    hide JobInv, Present, CallFits, Handled, PostExport, Taken, Begun, UniqueKeys, Bounded, OneOwner;
    HandledExports(j, js, w, active);
    RootIsOwners(j, js, call, w, store, docs);
    ExportBeginPresent(j, js, js.roots[w], call, awaited, store, docs);
    AnswerKeeps(j, js, call, ExportPost(w), awaited, 202, store, docs);
    var taken, after := Taken(js, ExportPost(w)), CallAfter(call, awaited, 202);
    var root', js' := Begun(js.roots[w]), Handled(js, ExportPost(w), PostExport(RootOn(js, w), active, j));
    PresentElsewhere(j, taken.(runs := js.runs + 1), js', root', after, store, docs);
    if !call.Idle? {
      CalledFits(j, taken, after, store, docs);
      CallStable(taken, js', after);
    }
    PutsPresent(j, taken, js', w, root', after, store, docs);
  }

  lemma HandledExports(j: JobId, js: JobSt, w: WorkerId, active: set<JobId>)
    requires PostExport(RootOn(js, w), active, j).status == 202 && (w in js.roots ==> js.roots[w].threads == {})
    ensures w in js.roots && (js.roots[w].state.Staged? || js.roots[w].state.ExportFailed?)
    ensures UniqueKeys(js.roots[w].state.result.outputs) && Moves(js.roots[w].state, Begun(js.roots[w]).state)
    ensures var taken := Taken(js, ExportPost(w));
            taken.row == js.row && taken.roots == js.roots
            && Handled(js, ExportPost(w), PostExport(RootOn(js, w), active, j))
               == taken.(runs := js.runs + 1, roots := js.roots[w := Begun(js.roots[w])])
  {
    assert js.roots[w].threads + {Copying(0, false)} == {Copying(0, false)};
  }

  lemma CalledFits(j: JobId, js: JobSt, call: Call, store: map<Key, Object>, docs: set<Doc>)
    requires JobInv(j, js, call, store, docs) && !call.Idle?
    ensures CallFits(js, call)
  {
  }

  lemma AllRemovable(outputs: seq<Output>)
    requires NamedAndProven(outputs)
    ensures Removable(outputs) == |outputs|
  {
  }

  lemma ReleasePresent(j: JobId, js: JobSt, root: Root, call: Call, store: map<Key, Object>, docs: set<Doc>)
    requires Present(j, js, root, call, store, docs)
    requires root.state.Exported? && root.threads == {} && js.row.attempt in js.row.receipts
    ensures var s := root.state;
            Present(j, js, Unlinked(root, s.result.outputs).(state := Released(s.attempt, s.result, s.receipts)), call, store, docs)
  {
  }

  lemma ReleasedKeeps(j: JobId, js: JobSt, call: Call, w: WorkerId, store: map<Key, Object>, docs: set<Doc>)
    requires JobInv(j, js, call, store, docs) && w in js.roots && js.row.attempt in js.row.receipts
    requires js.roots[w].state.Exported? && js.roots[w].threads == {}
    ensures var s := js.roots[w].state;
            JobInv(j, js.(roots := js.roots[w := Unlinked(js.roots[w], s.result.outputs).(
              state := Released(s.attempt, s.result, s.receipts))]), call, store, docs)
  {
    RootIsOwners(j, js, call, w, store, docs);
    hide Present, CallFits, Unlinked;
    var s := js.roots[w].state;
    var root' := Unlinked(js.roots[w], s.result.outputs).(state := Released(s.attempt, s.result, s.receipts));
    var js' := js.(roots := js.roots[w := root']);
    ReleasePresent(j, js, js.roots[w], call, store, docs);
    PresentElsewhere(j, js, js', root', call, store, docs);
    if !call.Idle? { CallStable(js, js', call); }
  }

  lemma ConfirmedKeeps(j: JobId, js: JobSt, call: Call, store: map<Key, Object>, docs: set<Doc>)
    requires JobInv(j, js, call, store, docs) && call.Answered? && call.msg.ReleasePost?
    requires js.row.worker in js.roots && js.roots[js.row.worker].state.Released?
    ensures JobInv(j, js, call.(status := 200), store, docs)
  {
  }

  lemma ReleaseReady(j: JobId, js: JobSt, call: Call, w: WorkerId, store: map<Key, Object>, docs: set<Doc>)
    requires JobInv(j, js, call, store, docs) && ReleasePost(w) in js.posts && w in js.roots && js.roots[w].state.Exported?
    ensures w == js.row.worker && js.row.attempt in js.row.receipts && NamedAndProven(js.roots[w].state.result.outputs)
    ensures ProofComplete(js.roots[w].state)
  {
  }

  lemma ReleaseKeeps(j: JobId, js: JobSt, call: Call, w: WorkerId, awaited: bool, active: set<JobId>,
                     store: map<Key, Object>, docs: set<Doc>)
    requires JobInv(j, js, call, store, docs) && Consumable(js, call, ReleasePost(w), awaited)
    requires w in js.roots && js.roots[w].state.Exported? && js.roots[w].threads == {} && active == {}
    ensures var answer := PostRelease(RootOn(js, w), active);
            answer.status == 200 && JobInv(j, Handled(js, ReleasePost(w), answer), CallAfter(call, awaited, 200), store, docs)
  {
    hide JobInv, NamedAndProven, Unlinked;
    ReleaseReady(j, js, call, w, store, docs);
    var s := js.roots[w].state;
    AllRemovable(s.result.outputs);
    assert s.result.outputs[..|s.result.outputs|] == s.result.outputs;
    AnswerKeeps(j, js, call, ReleasePost(w), awaited, 409, store, docs);
    ReleasedKeeps(j, Taken(js, ReleasePost(w)), CallAfter(call, awaited, 409), w, store, docs);
    var answer := PostRelease(RootOn(js, w), active);
    if awaited {
      ConfirmedKeeps(j, Handled(js, ReleasePost(w), answer), CallAfter(call, true, 409), store, docs);
    }
  }

  lemma CutPresent(j: JobId, js: JobSt, root: Root, outputs: seq<Output>, call: Call, store: map<Key, Object>, docs: set<Doc>)
    requires Present(j, js, root, call, store, docs) && js.row.attempt in js.row.receipts
    ensures Present(j, js, Unlinked(root, outputs), call, store, docs) && Moves(root.state, Unlinked(root, outputs).state)
  {
  }

  lemma CutKeeps(j: JobId, js: JobSt, call: Call, w: WorkerId, removed: nat, store: map<Key, Object>, docs: set<Doc>)
    requires JobInv(j, js, call, store, docs) && Consumable(js, call, ReleasePost(w), false)
    requires w in js.roots && js.roots[w].state.Exported? && removed <= |js.roots[w].state.result.outputs|
    ensures JobInv(j, ReleaseCut(js, w, removed), call, store, docs)
  {
    ReleaseReady(j, js, call, w, store, docs);
    hide JobInv, Present, CallFits, Unlinked, OneOwner, Bounded;
    AnswerKeeps(j, js, call, ReleasePost(w), false, 409, store, docs);
    var taken, outputs := Taken(js, ReleasePost(w)), js.roots[w].state.result.outputs[..removed];
    RootIsOwners(j, taken, call, w, store, docs);
    CutPresent(j, taken, js.roots[w], outputs, call, store, docs);
    var js' := ReleaseCut(js, w, removed);
    PresentElsewhere(j, taken, js', js'.roots[w], call, store, docs);
    if !call.Idle? {
      CalledFits(j, taken, call, store, docs);
      CallStable(taken, js', call);
    }
    PutsPresent(j, taken, js', w, js'.roots[w], call, store, docs);
  }

  /** How a directory may change under a controller that has read or asked about it. */
  ghost predicate Moves(s: WState, t: WState) {
    s.attempt == t.attempt && (s.Restarted() ==> t == s)
    && (s.HasResult() ==> t.HasResult() && t.result == s.result)
    && (s.Delivered() ==> t.Delivered() && t.receipts == s.receipts)
    && (s.Released? ==> t.Released?)
  }

  lemma CallStable(js: JobSt, js': JobSt, call: Call)
    requires CallFits(js, call) && js.row.worker in js.roots && js'.row == js.row && js'.posts == js.posts
    requires js'.roots.Keys == js.roots.Keys
    requires Moves(js.roots[js.row.worker].state, js'.roots[js.row.worker].state)
    ensures CallFits(js', call)
  {
  }

  lemma CrashPresent(j: JobId, js: JobSt, root: Root, call: Call, store: map<Key, Object>, docs: set<Doc>)
    requires Present(j, js, root, call, store, docs)
    ensures Present(j, js, CrashRoot(root), call, store, docs) && Moves(root.state, CrashRoot(root).state)
  {
    hide Bytes, InStore;
  }

  lemma CrashKeeps(j: JobId, js: JobSt, call: Call, w: WorkerId, store: map<Key, Object>, docs: set<Doc>)
    requires JobInv(j, js, call, store, docs)
    ensures JobInv(j, CrashJob(js, w), call, store, docs)
  {
    if w in js.roots {
      RootIsOwners(j, js, call, w, store, docs);
      CrashPresent(j, js, js.roots[w], call, store, docs);
      hide Present, CallFits;
      var js' := CrashJob(js, w);
      PresentElsewhere(j, js, js', js'.roots[w], call, store, docs);
      if !call.Idle? { CallStable(js, js', call); }
    }
  }

  lemma RestartPresent(j: JobId, js: JobSt, root: Root, call: Call, store: map<Key, Object>, docs: set<Doc>)
    requires Present(j, js, root, call, store, docs) && root.threads == {}
    ensures Present(j, js, RestartRoot(root), call, store, docs) && Moves(root.state, RestartRoot(root).state)
  {
  }

  lemma RestartKeeps(j: JobId, js: JobSt, call: Call, w: WorkerId, store: map<Key, Object>, docs: set<Doc>)
    requires JobInv(j, js, call, store, docs) && (w in js.roots ==> js.roots[w].threads == {})
    ensures JobInv(j, RestartJob(js, w), call, store, docs)
  {
    if w in js.roots {
      RootIsOwners(j, js, call, w, store, docs);
      RestartPresent(j, js, js.roots[w], call, store, docs);
      hide Present, CallFits;
      var js' := RestartJob(js, w);
      PresentElsewhere(j, js, js', js'.roots[w], call, store, docs);
      if !call.Idle? { CallStable(js, js', call); }
    }
  }

  lemma WorkMoves(row: Row, root: Root, work: WorkStep, spawned: multiset<nat>, store: map<Key, Object>)
    requires Enabled(root, work, store) && Threads(root, spawned, store) && Execution(root, spawned)
    requires Lockstep(row, root.state) && Produced(row, root)
    ensures var root' := Worked(root, work, store);
            Moves(root.state, root'.state) && Lockstep(row, root'.state) && Produced(row, root')
  {
  }

  lemma WorkExecution(root: Root, work: WorkStep, spawned: multiset<nat>, store: map<Key, Object>)
    requires Enabled(root, work, store) && Threads(root, spawned, store) && Execution(root, spawned)
    requires 1 <= root.state.attempt
    ensures Execution(Worked(root, work, store), spawned + (if work.Launch? then multiset{work.attempt} else multiset{}))
  {
  }

  lemma WorkThreads(root: Root, work: WorkStep, spawned: multiset<nat>, store: map<Key, Object>)
    requires Enabled(root, work, store) && Threads(root, spawned, store) && Execution(root, spawned)
    ensures Threads(Worked(root, work, store), spawned + (if work.Launch? then multiset{work.attempt} else multiset{}), store)
  {
    hide Enabled, Worked, Threads, Execution;
    assert spawned + multiset{} == spawned;
    if work.Verify? {
      VerifyThreads(root, work.next, spawned, store);
    } else if work.Put? || work.FailCopy? || work.FinishCopy? {
      CopyThreads(root, work, spawned, store);
    } else if work.RunnerExits? || work.LeaveActive? {
      EndThreads(root, work, spawned, store);
    } else {
      ExecThreads(root, work, spawned, store);
    }
  }

  lemma CopyThreads(root: Root, work: WorkStep, spawned: multiset<nat>, store: map<Key, Object>)
    requires (work.Put? || work.FailCopy? || work.FinishCopy?) && Enabled(root, work, store) && Threads(root, spawned, store)
    ensures Threads(Worked(root, work, store), spawned, store)
  {
    hide InStore;
  }

  lemma EndThreads(root: Root, work: WorkStep, spawned: multiset<nat>, store: map<Key, Object>)
    requires (work.RunnerExits? || work.LeaveActive?) && Enabled(root, work, store) && Threads(root, spawned, store)
    ensures Threads(Worked(root, work, store), spawned, store)
  {
    hide InStore;
  }

  lemma ExecThreads(root: Root, work: WorkStep, spawned: multiset<nat>, store: map<Key, Object>)
    requires work.Begin? || work.Launch? || work.Break? || work.FinishExec? || work.FinishRecover? || work.HoldRecover?
    requires Enabled(root, work, store) && Threads(root, spawned, store) && Execution(root, spawned)
    ensures Threads(Worked(root, work, store), spawned + (if work.Launch? then multiset{work.attempt} else multiset{}), store)
  {
    hide InStore;
  }

  lemma VerifyThreads(root: Root, i: nat, spawned: multiset<nat>, store: map<Key, Object>)
    requires Enabled(root, Verify(i), store) && Threads(root, spawned, store)
    ensures Threads(Worked(root, Verify(i), store), spawned, store)
  {
    var outputs := root.state.result.outputs;
    assert [outputs[i]][0] == outputs[i];
    assert InStore(outputs[..i + 1], store);
  }

  /** A PUT moves its bytes from what is still to be sent to what was sent. */
  lemma PutCovered(js: JobSt, root: Root, i: nat)
    requires root.state.HasResult() && SentCovered(js, root) && i < |root.state.result.outputs|
    requires root.threads == {Copying(i, false)}
    ensures SentCovered(js.(sent := js.sent + root.state.result.outputs[i].size), CopyPut(root, i))
  {
    var outputs := root.state.result.outputs;
    NextPrefix(outputs, i);
    PrefixBytes(outputs, i + 1);
    assert CopyPut(root, i).threads == {Copying(i, true)};
    assert Copying(i, false) in root.threads;
    assert Rest(outputs, Copying(i, false)) == Bytes(outputs) - Bytes(outputs[..i]);
    assert Rest(outputs, Copying(i, true)) == Bytes(outputs) - Bytes(outputs[..i + 1]);
  }

  lemma OnlyThread(root: Root, t: Thread, spawned: multiset<nat>, store: map<Key, Object>)
    requires Threads(root, spawned, store) && t in root.threads
    ensures root.threads == {t}
  {
  }

  lemma WorkAccounting(js: JobSt, w: WorkerId, work: WorkStep, call: Call, store: map<Key, Object>)
    requires w in js.roots && Enabled(js.roots[w], work, store) && Threads(js.roots[w], js.spawned, store)
    requires w == js.row.worker && ExportAccounting(js, js.roots[w], call)
    ensures var js' := Work(js, w, work, store); ExportAccounting(js', js'.roots[w], call)
  {
    hide Times, Bytes, InStore, NamedAndProven;
    var root := js.roots[w];
    if work.Put? {
      OnlyThread(root, Copying(work.next, false), js.spawned, store);
      PutCovered(js, root, work.next);
    } else if work.Verify? {
      OnlyThread(root, Copying(work.next, true), js.spawned, store);
      assert Rest(root.state.result.outputs, Copying(work.next + 1, false)) == Rest(root.state.result.outputs, Copying(work.next, true));
    }
  }

  lemma WorkDelivery(j: JobId, js: JobSt, w: WorkerId, work: WorkStep, store: map<Key, Object>, docs: set<Doc>)
    requires w in js.roots && Enabled(js.roots[w], work, store) && Threads(js.roots[w], js.spawned, store)
    requires w == js.row.worker && Delivery(j, js, js.roots[w], store, docs)
    ensures var js' := Work(js, w, work, store); Delivery(j, js', js'.roots[w], store, docs)
  {
    if work.FinishCopy? {
      var outputs := js.roots[w].state.result.outputs;
      assert outputs[..|outputs|] == outputs;
    }
  }

  lemma WorkMedia(row: Row, root: Root, work: WorkStep, spawned: multiset<nat>, store: map<Key, Object>)
    requires Enabled(root, work, store) && MediaKept(row, root) && Execution(root, spawned)
    ensures MediaKept(row, Worked(root, work, store))
  {
  }

  lemma RootIsOwners(j: JobId, js: JobSt, call: Call, w: WorkerId, store: map<Key, Object>, docs: set<Doc>)
    requires JobInv(j, js, call, store, docs) && w in js.roots
    ensures w == js.row.worker && !js.row.state.Queued? && !js.row.state.HeldStructure?
    ensures Present(j, js, js.roots[w], call, store, docs) && OneOwner(js) && Bounded(js.row) && js.roots.Keys == {w}
  {
  }

  lemma WorkKeeps(j: JobId, js: JobSt, call: Call, w: WorkerId, work: WorkStep, store: map<Key, Object>, docs: set<Doc>)
    requires JobInv(j, js, call, store, docs) && w in js.roots && Enabled(js.roots[w], work, store)
    ensures JobInv(j, Work(js, w, work, store), call, store, docs)
  {
    RootIsOwners(j, js, call, w, store, docs);
    hide Execution, Threads, Produced, ExportAccounting, Delivery, MediaKept, CallFits, Lockstep, Enabled, Worked;
    var js' := Work(js, w, work, store);
    var root := js.roots[w];
    WorkMoves(js.row, root, work, js.spawned, store);
    WorkExecution(root, work, js.spawned, store);
    WorkThreads(root, work, js.spawned, store);
    WorkAccounting(js, w, work, call, store);
    WorkDelivery(j, js, w, work, store, docs);
    WorkMedia(js.row, root, work, js.spawned, store);
    assert Present(j, js', js'.roots[w], call, store, docs);
    if !call.Idle? { CallStable(js, js', call); }
  }
}
