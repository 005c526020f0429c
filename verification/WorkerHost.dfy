/**
 The staging worker as a process: job directories on disk, the shared ACTIVE set, the locked POST
 handlers and the start-up scan. Each method is proved against the protocol step it performs.
 */
module WorkerHost {
  import opened Wrappers
  import opened StagingTypes
  import opened WorkerProtocol

  class WorkerProcess {
    var roots: map<JobId, Root>
    var active: set<JobId>

    constructor (disk: map<JobId, Root>)
      ensures roots == disk && active == {}
    {
      roots, active := disk, {};
    }

    function Dir(j: JobId): Option<Root>
      reads this
    {
      if j in roots then Some(roots[j]) else None
    }

    /** The directories after one handler answered about `j`. */
    twostate predicate AnsweredOnly(j: JobId, answer: Answer, status: nat)
      reads this
    {
      status == answer.status && active == answer.active && Dir(j) == answer.root
      && forall i :: i != j ==> Dir(i) == old(Dir(i))
    }

    /**
     `/job`: checks, then admission under the lock. It admits exactly a first attempt or the next one after a
     failure, on an idle worker with everything else in order; any other answer changes nothing at all.
     */
    method HandleJob(j: JobId, attempt: nat, gate: Gate) returns (status: nat)
      modifies this
      ensures status == 202 <==>
                gate.Open? && old(active) == {} && 1 <= attempt <= MAX_ATTEMPTS
                && if j in old(roots) then old(roots)[j].state.Failed? && attempt == old(roots)[j].state.attempt + 1 else attempt == 1
      ensures status == 202 ==>
                active == {j} && j in roots && roots[j].state == Accepted(attempt) && ExecStart(attempt) in roots[j].threads
                && (j in old(roots) ==> KeepsWork(old(roots)[j], roots[j]))
      ensures status != 202 ==> roots == old(roots) && active == old(active)
      ensures status == 200 ==> j in roots && !(roots[j].state.Failed? && attempt == roots[j].state.attempt + 1)
      ensures forall i :: i in roots && i != j ==> i in old(roots) && roots[i] == old(roots)[i]
      ensures |old(active)| <= 1 ==> |active| <= 1
      ensures AnsweredOnly(j, PostJob(old(Dir(j)), old(active), j, attempt, gate), status)
    {
      match gate {
        case Unbuilt => return 503;
        case BadWork => return 400;
        case NoSpace => return 507;
        case Open =>
      }
      if attempt < 1 || attempt > MAX_ATTEMPTS {
        return 400;
      }
      if j in roots {
        var prior := roots[j].state;
        if !prior.Failed? || attempt != prior.attempt + 1 {
          return 200;
        }
      } else if attempt != 1 {
        return 400;
      }
      if active != {} {
        return 409;
      }
      var dir := if j in roots then roots[j] else Root(Accepted(attempt), {}, map[], map[], {});
      assert {} + {ExecStart(attempt)} == {ExecStart(attempt)};
      roots := roots[j := dir.(state := Accepted(attempt), threads := dir.threads + {ExecStart(attempt)})];
      active := active + {j};
      return 202;
    }

    /**
     `/export`: begins exactly for a staged or failed export with distinct keys on an idle worker, of the same result;
     any other answer changes nothing at all, and 200 says it is under way or done.
     */
    method HandleExport(j: JobId) returns (status: nat)
      modifies this
      ensures status == 202 <==>
                old(active) == {} && j in old(roots) && (old(roots)[j].state.Staged? || old(roots)[j].state.ExportFailed?)
                && UniqueKeys(old(roots)[j].state.result.outputs)
      ensures status == 202 ==>
                active == {j} && j in roots && KeepsWork(old(roots)[j], roots[j])
                && roots[j].state == Exporting(old(roots)[j].state.attempt, old(roots)[j].state.result)
      ensures status == 200 <==> j in old(roots) && (old(roots)[j].state.Exporting? || old(roots)[j].state.Exported?)
      ensures status != 202 ==> roots == old(roots) && active == old(active)
      ensures forall i :: i in roots && i != j ==> i in old(roots) && roots[i] == old(roots)[i]
      ensures |old(active)| <= 1 ==> |active| <= 1
      ensures AnsweredOnly(j, PostExport(old(Dir(j)), old(active), j), status)
    {
      if j !in roots {
        return 500;
      }
      var dir := roots[j];
      if dir.state.Exporting? || dir.state.Exported? {
        return 200;
      }
      if !(dir.state.Staged? || dir.state.ExportFailed?) || active != {} {
        return 409;
      }
      if !UniqueKeys(dir.state.result.outputs) {
        return 400;
      }
      roots := roots[j := dir.(state := Exporting(dir.state.attempt, dir.state.result),
                               threads := dir.threads + {Copying(0, false)})];
      active := active + {j};
      return 202;
    }

    /**
     `/release`: unlink the outputs one by one, then write the released state. It releases exactly an exported job on an
     idle worker whose every output has a verified receipt and a removable path; then no output is left, and nothing
     but outputs of the job's own attempt is ever removed.
     */
    method HandleRelease(j: JobId) returns (status: nat)
      modifies this
      ensures status == 200 <==>
                j in old(roots)
                && var s := old(roots)[j].state;
                   s.Released?
                   || (s.Exported? && old(active) == {} && |s.receipts| == |s.result.outputs|
                       && (forall i :: 0 <= i < |s.receipts| ==> s.receipts[i].verified)
                       && forall i :: 0 <= i < |s.result.outputs| ==> s.result.outputs[i].key.ObjectKey?)
      ensures status == 500 <==> j !in old(roots)
      ensures j !in old(roots) || old(roots)[j].state.Released? ==> roots == old(roots)
      ensures j in old(roots) && status == 200 && !old(roots)[j].state.Released? ==>
                var s := old(roots)[j].state;
                j in roots && roots[j].state == Released(s.attempt, s.result, s.receipts)
                && (s.attempt in roots[j].disk ==>
                      forall i :: 0 <= i < |s.result.outputs| ==> s.result.outputs[i].key !in roots[j].disk[s.attempt])
      ensures j in old(roots) && status != 200 ==> j in roots && roots[j].state == old(roots)[j].state
      ensures j in old(roots) ==>
                j in roots
                && (roots[j] == old(roots)[j]
                    || (old(roots)[j].state.Exported?
                        && OnlyOutputsGone(old(roots)[j], roots[j], old(roots)[j].state.result.outputs)))
      ensures AnsweredOnly(j, PostRelease(old(Dir(j)), old(active)), status)
    {
      hide OnlyOutputsGone, Unlinked, Removable;
      if j !in roots {
        return 500;
      }
      var s := roots[j].state;
      if s.Released? {
        return 200;
      }
      if !s.Exported? || active != {} || !ProofComplete(s) {
        return 409;
      }
      var outputs := s.result.outputs;
      ghost var before := roots[j];
      UnlinkNone(before);
      var i := 0;
      while i < |outputs|
        invariant i <= |outputs| && j in roots && active == {}
        invariant i <= Removable(outputs)
        invariant roots[j] == Unlinked(before, outputs[..i])
        invariant forall k :: k != j ==> Dir(k) == old(Dir(k))
      {
        if !outputs[i].key.ObjectKey? {
          RemovableStops(outputs, i);
          UnlinkedOnly(before, outputs, i, s);
          return 409;
        }
        RemovablePasses(outputs, i);
        UnlinkNext(before, outputs, i);
        var dir := roots[j];
        var a := dir.state.attempt;
        if a in dir.disk {
          roots := roots[j := dir.(disk := dir.disk[a := dir.disk[a] - {outputs[i].key}])];
        }
        i := i + 1;
      }
      assert outputs[..|outputs|] == outputs;
      UnlinkedOnly(before, outputs, |outputs|, Released(s.attempt, s.result, s.receipts));
      roots := roots[j := roots[j].(state := Released(s.attempt, s.result, s.receipts))];
      return 200;
    }

    /**
     Start-up: take every job up again that was admitted, running or held, and mark interrupted exports for a retry;
     nothing else changes.
     */
    method RecoverOrphans()
      requires active == {}
      modifies this
      ensures roots.Keys == old(roots).Keys && forall j :: j in old(roots) ==> TakenUp(old(roots)[j], roots[j])
      ensures forall j :: j in active <==>
                            j in old(roots) && var s := old(roots)[j].state;
                                               s.Accepted? || s.Running? || (s.Failed? && s.failure.RecoveryHold?)
      ensures forall j :: j in old(roots) ==> roots[j] == RestartRoot(old(roots)[j])
    {
      hide RestartRoot, TakenUp, Restarting;
      ghost var before := roots;
      var todo := roots.Keys;
      RestartBegins(before);
      while todo != {}
        invariant todo <= roots.Keys && Restarting(before, roots, active, todo)
        decreases |todo|
      {
        var j :| j in todo;
        var dir := roots[j];
        RestartsNext(before, roots, active, todo, j);
        if dir.state.Busy() {
          active := active + {j};
          dir := dir.(threads := {Recovering(dir.state.attempt)});
        } else if dir.state.Exporting? {
          dir := dir.(state := ExportFailed(dir.state.attempt, dir.state.result));
        }
        roots := roots[j := dir];
        todo := todo - {j};
      }
      RestartEnds(before, roots, active);
    }
  }

  /** A job that may still have a runner is taken up by one recover thread, and an export cut off becomes a failed one. */
  predicate TakenUp(before: Root, after: Root) {
    after.live == before.live && after.exits == before.exits && after.disk == before.disk
    && match before.state
       case Accepted(a) => after.state == before.state && after.threads == {Recovering(a)}
       case Running(a) => after.state == before.state && after.threads == {Recovering(a)}
       case Failed(a, RecoveryHold) => after.state == before.state && after.threads == {Recovering(a)}
       case Exporting(a, result) => after.state == ExportFailed(a, result) && after.threads == before.threads
       case _ => after == before
  }

  /** The directories not in `todo` are restarted and the busy ones among them in ACTIVE. */
  ghost predicate Restarting(before: map<JobId, Root>, roots: map<JobId, Root>, active: set<JobId>, todo: set<JobId>) {
    todo <= before.Keys == roots.Keys
    && (forall j :: j in before ==> roots[j] == if j in todo then before[j] else RestartRoot(before[j]))
    && forall j :: j in active <==> j in before && j !in todo && before[j].state.Busy()
  }

  lemma RestartBegins(before: map<JobId, Root>)
    ensures Restarting(before, before, {}, before.Keys)
  {
  }

  lemma RestartsNext(before: map<JobId, Root>, roots: map<JobId, Root>, active: set<JobId>, todo: set<JobId>, j: JobId)
    requires Restarting(before, roots, active, todo) && j in todo
    ensures j in roots
    ensures var dir := roots[j];
            var next := if dir.state.Busy() then dir.(threads := {Recovering(dir.state.attempt)})
                        else if dir.state.Exporting? then dir.(state := ExportFailed(dir.state.attempt, dir.state.result))
                        else dir;
            Restarting(before, roots[j := next], if dir.state.Busy() then active + {j} else active, todo - {j})
  {
    RestartedRoot(roots[j]);
    hide RestartRoot;
  }

  lemma RestartEnds(before: map<JobId, Root>, roots: map<JobId, Root>, active: set<JobId>)
    requires Restarting(before, roots, active, {})
    ensures before.Keys == roots.Keys
    ensures forall j :: j in before ==> roots[j] == RestartRoot(before[j]) && TakenUp(before[j], roots[j])
    ensures forall j :: j in active <==> j in before && before[j].state.Busy()
  {
  }

  lemma RestartedRoot(dir: Root)
    ensures dir.state.Busy() ==> RestartRoot(dir) == dir.(threads := {Recovering(dir.state.attempt)})
    ensures dir.state.Exporting? ==> RestartRoot(dir) == dir.(state := ExportFailed(dir.state.attempt, dir.state.result))
    ensures !dir.state.Busy() && !dir.state.Exporting? ==> RestartRoot(dir) == dir
  {
  }

  /** No runner, exit record, file or other thread of the job is touched. */
  predicate KeepsWork(before: Root, after: Root) {
    after.live == before.live && after.exits == before.exits && after.disk == before.disk && before.threads <= after.threads
  }

  lemma {:induction false} RemovableStops(outputs: seq<Output>, i: nat)
    requires i < |outputs| && i <= Removable(outputs) && !outputs[i].key.ObjectKey?
    ensures Removable(outputs) == i
  {
  }

  lemma {:induction false} RemovablePasses(outputs: seq<Output>, i: nat)
    requires i < |outputs| && i <= Removable(outputs) && outputs[i].key.ObjectKey?
    ensures i + 1 <= Removable(outputs)
  {
  }

  /** No runner, exit record or thread is touched, and no file but these outputs of the directory's own attempt is gone. */
  ghost predicate OnlyOutputsGone(before: Root, after: Root, outputs: seq<Output>) {
    after.live == before.live && after.exits == before.exits && after.threads == before.threads && after.disk.Keys == before.disk.Keys
    && (forall a :: a in before.disk && a != before.state.attempt ==> after.disk[a] == before.disk[a])
    && forall a, k :: a in before.disk && a == before.state.attempt ==>
         (k in after.disk[a] ==> k in before.disk[a] && after.disk[a][k] == before.disk[a][k])
         && (k in before.disk[a] && k !in after.disk[a] ==> exists i :: 0 <= i < |outputs| && outputs[i].key == k)
  }

  lemma UnlinkedOnly(root: Root, outputs: seq<Output>, n: nat, next: WState)
    requires n <= |outputs|
    ensures OnlyOutputsGone(root, Unlinked(root, outputs[..n]), outputs)
    ensures OnlyOutputsGone(root, Unlinked(root, outputs[..n]).(state := next), outputs)
    ensures var gone := Unlinked(root, outputs[..n]);
            gone.state == root.state
            && (root.state.attempt in gone.disk ==> forall i :: 0 <= i < n ==> outputs[i].key !in gone.disk[root.state.attempt])
  {
    forall i | 0 <= i < n ensures outputs[i].key in KeysOf(outputs[..n]) {
      assert outputs[i] == outputs[..n][i];
    }
    forall k | k in KeysOf(outputs[..n]) ensures exists i :: 0 <= i < |outputs| && outputs[i].key == k {
      var o :| o in outputs[..n] && o.key == k;
      var i :| 0 <= i < n && outputs[..n][i] == o;
      assert outputs[i].key == k;
    }
  }

  lemma UnlinkNone(root: Root)
    ensures Unlinked(root, []) == root
  {
    var a := root.state.attempt;
    assert KeysOf([]) == {};
    if a in root.disk {
      assert root.disk[a] - {} == root.disk[a];
      assert root.disk[a := root.disk[a]] == root.disk;
    }
  }

  lemma UnlinkNext(root: Root, outputs: seq<Output>, i: nat)
    requires i < |outputs|
    ensures var a := root.state.attempt; var partly := Unlinked(root, outputs[..i]);
            Unlinked(root, outputs[..i + 1])
            == if a in partly.disk then partly.(disk := partly.disk[a := partly.disk[a] - {outputs[i].key}]) else partly
    ensures Unlinked(root, outputs[..i]).state == root.state
  {
    assert outputs[..i + 1] == outputs[..i] + [outputs[i]];
    var a := root.state.attempt;
    if a in root.disk {
      var gone := KeysOf(outputs[..i]);
      assert KeysOf(outputs[..i + 1]) == gone + {outputs[i].key};
      assert root.disk[a] - (gone + {outputs[i].key}) == root.disk[a] - gone - {outputs[i].key};
      assert root.disk[a := root.disk[a] - gone][a := root.disk[a] - gone - {outputs[i].key}]
             == root.disk[a := root.disk[a] - gone - {outputs[i].key}];
    }
  }
}
