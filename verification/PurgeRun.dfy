/**
 The NAS purge as it runs: one transaction per batch against the clip table and the object store,
 halving on a trigger refusal, sampled source checks, and the keyset-paged pass around them.
 Any store call, commit or process may fail at any point; those choices are left open.
 */
module PurgeRun {
  import opened Wrappers
  import opened PurgeState

  datatype Options = Options(after: nat, until: nat, excludeClips: set<nat>, excludeRecordings: set<nat>, headAll: bool,
                             apply: bool, checkR2: bool, limit: nat, maxBytes: nat, pageSize: nat, batchSize: nat,
                             shaEvery: nat, maxErrors: nat)
  {
    /** What the flag parser makes sure of. */
    predicate Valid() {
      1 <= pageSize <= 5000 && 1 <= batchSize <= 1000 && 1 <= maxErrors && !(apply && checkR2)
    }
  }

  /** One disposition of one clip. */
  datatype Note = Skip(reason: Reason) | Eligible | HeadFailed | BatchFailed | Done(fate: Fate)

  datatype Entry = Entry(id: nat, note: Note)

  function Count(log: seq<Entry>, id: nat): nat {
    if log == [] then 0 else Count(log[..|log| - 1], id) + (if log[|log| - 1].id == id then 1 else 0)
  }

  function Ids(batch: seq<Clip>): set<nat> { set c | c in batch :: c.id }

  function ClipSet(batch: seq<Clip>): set<Clip> { set c | c in batch }

  /** The log grew by exactly one disposition for each of `ids` and nothing else. */
  ghost predicate Accounts(before: seq<Entry>, log: seq<Entry>, ids: set<nat>) {
    before <= log && forall id :: Count(log, id) == Count(before, id) + (if id in ids then 1 else 0)
  }

  lemma AccountsNothing(log: seq<Entry>)
    ensures Accounts(log, log, {})
  {
  }

  lemma AccountsOne(before: seq<Entry>, log: seq<Entry>, ids: set<nat>, e: Entry)
    requires Accounts(before, log, ids) && e.id !in ids
    ensures Accounts(before, log + [e], ids + {e.id})
  {
    assert (log + [e])[..|log|] == log;
  }

  lemma AccountsThen(before: seq<Entry>, mid: seq<Entry>, log: seq<Entry>, a: set<nat>, b: set<nat>)
    requires Accounts(before, mid, a) && Accounts(mid, log, b) && a !! b
    ensures Accounts(before, log, a + b)
  {
  }

  /** Whatever happened, only these clips got entries and no entry was lost. */
  ghost predicate Grew(before: seq<Entry>, log: seq<Entry>, ids: set<nat>) {
    before <= log && forall id :: Count(log, id) >= Count(before, id) && (id !in ids ==> Count(log, id) == Count(before, id))
  }

  lemma GrewNothing(log: seq<Entry>, ids: set<nat>)
    ensures Grew(log, log, ids)
  {
  }

  lemma GrewThen(before: seq<Entry>, mid: seq<Entry>, log: seq<Entry>, a: set<nat>, b: set<nat>, ids: set<nat>)
    requires Grew(before, mid, a) && Grew(mid, log, b) && a + b <= ids
    ensures Grew(before, log, ids)
  {
  }

  lemma AccountsGrew(before: seq<Entry>, log: seq<Entry>, ids: set<nat>)
    requires Accounts(before, log, ids)
    ensures Grew(before, log, ids)
  {
  }

  /** Every new entry gives one of the clips the fate it has by itself. */
  ghost predicate Truthful(before: seq<Entry>, log: seq<Entry>, clips: set<Clip>, rows: Rows, stuck: set<ObjectName>) {
    before <= log && forall k :: |before| <= k < |log| ==> TruthfulEntry(log[k], clips, rows, stuck)
  }

  ghost predicate TruthfulEntry(e: Entry, clips: set<Clip>, rows: Rows, stuck: set<ObjectName>) {
    exists c :: c in clips && c.id == e.id && e.note == Done(FateOf(c, rows, stuck))
  }

  lemma TruthfulOne(before: seq<Entry>, log: seq<Entry>, c: Clip, clips: set<Clip>, rows: Rows, stuck: set<ObjectName>)
    requires Truthful(before, log, clips, rows, stuck) && c in clips
    ensures Truthful(before, log + [Entry(c.id, Done(FateOf(c, rows, stuck)))], clips, rows, stuck)
  {
    assert TruthfulEntry(Entry(c.id, Done(FateOf(c, rows, stuck))), clips, rows, stuck);
  }

  /** The second half of a split batch meets the fates of the whole. */
  lemma TruthfulThen(before: seq<Entry>, mid: seq<Entry>, log: seq<Entry>, a: seq<Clip>, b: seq<Clip>, rows: Rows, objects: Objects,
                     stuck: set<ObjectName>)
    requires Keyed(rows) && Distinct(a + b)
    requires Truthful(before, mid, ClipSet(a), rows, stuck)
    requires var o := PurgeEach(a, rows, objects, stuck); Truthful(mid, log, ClipSet(b), o.rows, stuck)
    ensures Truthful(before, log, ClipSet(a + b), rows, stuck)
  {
    var o, gone := PurgeEach(a, rows, objects, stuck), PurgedClips(a, rows, stuck);
    assert Distinct(a) by {
      forall i, k | 0 <= i < k < |a| ensures a[i].id != a[k].id { assert (a + b)[i].id != (a + b)[k].id; }
    }
    BatchIsEach(a, rows, objects, stuck);
    forall k | |before| <= k < |log| ensures TruthfulEntry(log[k], ClipSet(a + b), rows, stuck) {
      if k < |mid| {
        assert TruthfulEntry(mid[k], ClipSet(a), rows, stuck);
        var c :| c in ClipSet(a) && c.id == mid[k].id && mid[k].note == Done(FateOf(c, rows, stuck));
        assert c in ClipSet(a + b);
      } else {
        assert TruthfulEntry(log[k], ClipSet(b), o.rows, stuck);
        var c :| c in ClipSet(b) && c.id == log[k].id && log[k].note == Done(FateOf(c, o.rows, stuck));
        assert c in ClipSet(a + b);
        ApartIds(a, b, c);
        FateStays(c, gone, rows, stuck);
      }
    }
  }

  lemma ApartIds(a: seq<Clip>, b: seq<Clip>, c: Clip)
    requires Distinct(a + b) && c in b
    ensures forall d :: d in a ==> d.id != c.id
  {
    var k :| 0 <= k < |b| && b[k] == c;
    forall d | d in a ensures d.id != c.id {
      var i :| 0 <= i < |a| && a[i] == d;
      assert (a + b)[i] == d && (a + b)[|a| + k] == c;
    }
  }

  lemma HalvesDistinct(batch: seq<Clip>, mid: nat)
    requires Distinct(batch) && mid <= |batch|
    ensures Distinct(batch[..mid]) && Distinct(batch[mid..]) && batch[..mid] + batch[mid..] == batch
    ensures Ids(batch[..mid]) !! Ids(batch[mid..]) && Ids(batch[..mid]) + Ids(batch[mid..]) == Ids(batch)
    ensures ClipSet(batch[..mid]) <= ClipSet(batch) && ClipSet(batch[mid..]) <= ClipSet(batch)
  {
    var a, b := batch[..mid], batch[mid..];
    assert a + b == batch;
    forall c | c in b ensures forall d :: d in a ==> d.id != c.id { ApartIds(a, b, c); }
    forall x | x in Ids(batch) ensures x in Ids(a) + Ids(b) {
      var c :| c in batch && c.id == x;
      assert c in a || c in b;
    }
  }

  lemma IdsNext(batch: seq<Clip>, i: nat)
    requires i < |batch| && Distinct(batch)
    ensures Ids(batch[..i + 1]) == Ids(batch[..i]) + {batch[i].id} && batch[i].id !in Ids(batch[..i])
  {
    assert batch[..i + 1] == batch[..i] + [batch[i]];
  }

  datatype BatchResult = Result(purged: seq<Clip>, changed: seq<Clip>, failed: seq<Clip>) | Refused | Broken | Died

  /** Go on, stop the run on too many errors, or the process is gone. */
  datatype Flow = Continue | Abort | Dead

  datatype Head = Unsampled | Absent | Unreachable | WrongSize | ShaChecked | WrongSha | Present

  /** The clips of `batch` with that fate, in order. */
  function With(batch: seq<Clip>, fate: Fate, rows: Rows, stuck: set<ObjectName>): (r: seq<Clip>)
    ensures forall c :: c in r <==> c in batch && FateOf(c, rows, stuck) == fate
    ensures |r| <= |batch|
  {
    if batch == [] then []
    else
      var n := |batch| - 1;
      With(batch[..n], fate, rows, stuck) + (if FateOf(batch[n], rows, stuck) == fate then [batch[n]] else [])
  }

  lemma WithNone(rows: Rows, stuck: set<ObjectName>)
    ensures forall fate :: With([], fate, rows, stuck) == []
  {
  }

  lemma WithNext(batch: seq<Clip>, i: nat, fate: Fate, rows: Rows, stuck: set<ObjectName>)
    requires i < |batch|
    ensures With(batch[..i + 1], fate, rows, stuck)
            == With(batch[..i], fate, rows, stuck)
               + if FateOf(batch[i], rows, stuck) == fate then [batch[i]] else []
  {
    assert batch[..i + 1][..i] == batch[..i];
  }

  lemma {:induction false} WithDistinct(batch: seq<Clip>, fate: Fate, rows: Rows, stuck: set<ObjectName>)
    requires Distinct(batch)
    ensures Distinct(With(batch, fate, rows, stuck))
  {
    hide FateOf;
    if batch != [] {
      var n := |batch| - 1;
      WithDistinct(batch[..n], fate, rows, stuck);
      assert forall c :: c in With(batch[..n], fate, rows, stuck) ==> c.id != batch[n].id;
    }
  }

  function Lockables(batch: seq<Clip>, rows: Rows): (r: seq<Clip>)
    ensures forall c :: c in r <==> c in batch && Lockable(c, rows)
  {
    if batch == [] then []
    else
      var n := |batch| - 1;
      Lockables(batch[..n], rows) + (if Lockable(batch[n], rows) then [batch[n]] else [])
  }

  lemma {:induction false} WithLocked(batch: seq<Clip>, fate: Fate, rows: Rows, stuck: set<ObjectName>)
    requires !fate.Changed?
    ensures With(Lockables(batch, rows), fate, rows, stuck) == With(batch, fate, rows, stuck)
  {
    hide FateOf, Lockable, With, Lockables;
    if batch == [] {
      WithNone(rows, stuck);
      LockablesEnd(batch, rows);
    } else {
      var n := |batch| - 1;
      WithLocked(batch[..n], fate, rows, stuck);
      UnlockableFate(batch[n], rows, stuck);
      LockablesEnd(batch, rows);
      WithEnd(batch[..n], batch[n], fate, rows, stuck);
      WithEnd(Lockables(batch[..n], rows), batch[n], fate, rows, stuck);
      assert batch == batch[..n] + [batch[n]];
    }
  }

  lemma LockablesEnd(batch: seq<Clip>, rows: Rows)
    ensures batch == [] ==> Lockables(batch, rows) == []
    ensures batch != [] ==>
              var n := |batch| - 1;
              Lockables(batch, rows)
              == if Lockable(batch[n], rows) then Lockables(batch[..n], rows) + [batch[n]] else Lockables(batch[..n], rows)
  {
  }

  lemma WithEnd(front: seq<Clip>, c: Clip, fate: Fate, rows: Rows, stuck: set<ObjectName>)
    ensures With(front + [c], fate, rows, stuck)
            == With(front, fate, rows, stuck) + if FateOf(c, rows, stuck) == fate then [c] else []
  {
    assert (front + [c])[..|front|] == front;
  }

  lemma UnlockableFate(c: Clip, rows: Rows, stuck: set<ObjectName>)
    ensures FateOf(c, rows, stuck).Changed? <==> !Lockable(c, rows)
  {
  }

  lemma {:induction false} EmptyWith(batch: seq<Clip>, fate: Fate, rows: Rows, stuck: set<ObjectName>)
    requires forall c :: c in batch ==> FateOf(c, rows, stuck) != fate
    ensures With(batch, fate, rows, stuck) == []
  {
    if batch != [] {
      EmptyWith(batch[..|batch| - 1], fate, rows, stuck);
    }
  }

  /** `UPDATE ... WHERE id=ANY(...)`. */
  function Update(rows: Rows, ids: set<nat>, purged: bool): Rows {
    map id | id in rows :: if id in ids then rows[id].(purged := purged) else rows[id]
  }

  /** Setting `purged_at` on the locked rows and taking it back for the undeleted ones marks the purged ones. */
  lemma UpdateAndRevert(rows: Rows, locked: set<Clip>, kept: set<Clip>)
    requires Keyed(rows) && kept <= locked && forall c :: c in locked ==> Lockable(c, rows)
    ensures Update(Update(rows, set c | c in locked :: c.id, true), set c | c in kept :: c.id, false) == Marked(rows, locked - kept)
  {
  }

  class NasPurger {
    const opts: Options
    const stuck: set<ObjectName>
    const faults: nat -> bool
    var chances: nat
    var rows: Rows
    var objects: Objects
    var log: seq<Entry>
    var scanned: nat
    var eligible: nat
    var eligibleBytes: nat
    var purged: nat
    var purgedBytes: nat
    var errors: nat
    var lastClipId: nat
    var limitReached: bool
    var interrupted: bool
    var cancelled: bool
    var headN: nat

    constructor (options: Options, table: Rows, store: Objects, undeletable: set<ObjectName>, misfortune: nat -> bool)
      ensures opts == options && stuck == undeletable && faults == misfortune && rows == table && objects == store
      ensures log == [] && scanned == eligible == eligibleBytes == purged == purgedBytes == errors == headN == 0
      ensures lastClipId == options.after && !limitReached && !interrupted && !cancelled
    {
      opts, stuck, faults, chances, rows, objects := options, undeletable, misfortune, 0, table, store;
      log, scanned, eligible, eligibleBytes, purged, purgedBytes, errors, headN := [], 0, 0, 0, 0, 0, 0, 0;
      lastClipId, limitReached, interrupted, cancelled := options.after, false, false, false;
    }

    /** Whether this chance for something to go wrong is taken: an interruption, a failed call, or the end of the process. */
    method Strikes() returns (hit: bool)
      modifies this`chances
      ensures hit == faults(old(chances)) && (Calm() ==> !hit)
    {
      hit := faults(chances);
      chances := chances + 1;
    }

    /** Nothing goes wrong but what must: only stuck keys fail. */
    ghost predicate Calm() { forall n :: !faults(n) }

    /** The run may be interrupted at any moment, and stays interrupted. */
    method Poll() returns (now: bool)
      modifies this`cancelled, this`chances
      ensures old(cancelled) ==> cancelled
      ensures now == cancelled && (Calm() ==> cancelled == old(cancelled))
    {
      var hit := Strikes();
      if hit {
        cancelled := true;
      }
      return cancelled;
    }

    /**
     `DeleteObjectsEach`: the keys reported as failed, or nothing at all if the request broke off. A stuck key always
     fails; any other may fail this time, whether its object is then gone or not.
     */
    method DeleteEach(keys: set<ObjectName>) returns (failed: Option<set<ObjectName>>)
      modifies this`objects, this`chances
      ensures DeletedOnly(keys, stuck, old(objects), objects)
      ensures Calm() ==> failed == Some(keys * stuck)
      ensures failed.Some? ==> keys * stuck <= failed.value <= keys && forall k :: k in keys && k !in failed.value ==> k !in objects
    {
      hide DeletedOnly, Calm;
      ghost var before := objects;
      var todo, bad := keys, {};
      NothingDeleted(keys, stuck, objects);
      while todo != {}
        invariant todo <= keys && bad <= keys && keys * stuck <= todo + bad
        invariant forall k :: k in keys && k !in todo && k !in bad ==> k !in objects
        invariant DeletedOnly(keys, stuck, before, objects)
        invariant Calm() ==> bad == (keys - todo) * stuck
        decreases |todo|
      {
        var breaks := Strikes();
        if breaks {
          return None;
        }
        var k :| k in todo;
        DeletesNext(keys, todo, k, stuck, before, objects);
        if k in stuck {
          bad := bad + {k};
        } else {
          var reported := Strikes();
          var kept := Strikes();
          if reported {
            bad := bad + {k};
          }
          if !reported || !kept {
            objects := objects - {k};
          }
        }
        todo := todo - {k};
      }
      return Some(bad);
    }

    /** The locked re-check: the rows that still are what was scanned and pass every rule. */
    method LockRows(batch: seq<Clip>) returns (locked: seq<Clip>, changed: seq<Clip>)
      ensures locked == Lockables(batch, rows) && changed == With(batch, Changed, rows, stuck)
    {
      hide With, Lockables, FateOf;
      WithNone(rows, stuck);
      LockablesEnd([], rows);
      locked, changed := [], [];
      for i := 0 to |batch|
        invariant locked == Lockables(batch[..i], rows) && changed == With(batch[..i], Changed, rows, stuck)
      {
        var c := batch[i];
        assert batch[..i + 1][..i] == batch[..i];
        LockablesEnd(batch[..i + 1], rows);
        WithNext(batch, i, Changed, rows, stuck);
        UnlockableFate(c, rows, stuck);
        if c.id in rows && !rows[c.id].purged && rows[c.id].facts.All() && rows[c.id].clip == c {
          locked := locked + [c];
        } else {
          changed := changed + [c];
        }
      }
      assert batch[..|batch|] == batch;
    }

    /** Which locked clips the multi-delete did and did not report as failed. */
    method SplitByDelete(locked: seq<Clip>, failed: set<ObjectName>) returns (done: seq<Clip>, kept: seq<Clip>)
      requires forall c :: c in locked ==> FateOf(c, rows, failed) == if c.key in failed then DeleteFailed else Purged
      ensures done == With(locked, Purged, rows, failed) && kept == With(locked, DeleteFailed, rows, failed)
    {
      hide FateOf, With;
      WithNone(rows, failed);
      done, kept := [], [];
      for i := 0 to |locked|
        invariant done == With(locked[..i], Purged, rows, failed) && kept == With(locked[..i], DeleteFailed, rows, failed)
      {
        WithNext(locked, i, Purged, rows, failed);
        WithNext(locked, i, DeleteFailed, rows, failed);
        assert locked[i] in locked;
        if locked[i].key in failed {
          kept := kept + [locked[i]];
        } else {
          done := done + [locked[i]];
        }
      }
      assert locked[..|locked|] == locked;
    }

    /** Past the checks: mark, delete, take back what was not deleted, commit. */
    method DeleteAndCommit(batch: seq<Clip>, locked: seq<Clip>, changed: seq<Clip>) returns (r: BatchResult, ghost bad: set<ObjectName>)
      requires Keyed(rows) && Distinct(batch) && locked == Lockables(batch, rows) && changed == With(batch, Changed, rows, stuck)
      requires forall c :: c in locked ==> !rows[c.id].refused
      modifies this`rows, this`objects, this`chances
      ensures PartlyPurged(ClipSet(batch), old(rows), old(objects), rows, objects, stuck) && !r.Refused?
      ensures r.Result? ==>
                rows == Marked(old(rows), PurgedClips(batch, old(rows), bad))
                && With(batch, TriggerRefused, old(rows), bad) == []
                && r.purged == With(batch, Purged, old(rows), bad)
                && r.changed == With(batch, Changed, old(rows), bad)
                && r.failed == With(batch, DeleteFailed, old(rows), bad)
                && MoreFails(batch, old(rows), bad, stuck)
                && (Steady(batch, old(rows), bad, stuck) ==> objects == Without(old(objects), PurgedClips(batch, old(rows), stuck)))
      ensures Calm() ==> r.Result? && Steady(batch, old(rows), bad, stuck)
    {
      hide PartlyPurged, With, Marked, Without, FateOf, Distinct, Steady, MoreFails, Calm, PurgedClips, ClipSet;
      bad := stuck;
      var tx := Update(rows, set c | c in locked :: c.id, true);
      ghost var before := objects;
      var failed := DeleteEach(set c | c in locked :: c.key);
      DeletedIsPartly(batch, rows, before, objects, locked, stuck);
      if failed.None? {
        return Broken, bad;
      }
      var hit := Strikes();
      if hit {
        return Died, bad;
      }
      bad := failed.value;
      DeletedFates(locked, rows, failed.value);
      if Calm() {
        CalmIsSteady(batch, rows, locked, bad, stuck);
      }
      var done, kept := SplitByDelete(locked, failed.value);
      tx := Update(tx, set c | c in kept :: c.id, false);
      hit := Strikes();
      if hit {
        return Broken, bad;
      }
      CommitIsMarked(batch, rows, locked, done, kept, changed, bad, stuck);
      CommitIsPartly(batch, rows, before, objects, locked, bad, stuck);
      rows := tx;
      hit := Strikes();
      if hit {
        return Broken, bad;
      }
      hit := Strikes();
      if hit {
        return Died, bad;
      }
      return Result(done, changed, kept), bad;
    }

    /**
     The single write path. It marks, deletes, takes back what was reported as not deleted, and commits; a failed
     commit may have happened all the same. Wherever it ends, it has done part of purging each clip by itself.
     `bad` are the keys whose delete was reported as failed this time.
     */
    method PurgeBatch(batch: seq<Clip>) returns (r: BatchResult, ghost bad: set<ObjectName>)
      requires Keyed(rows) && Distinct(batch)
      modifies this`rows, this`objects, this`chances
      ensures PartlyPurged(ClipSet(batch), old(rows), old(objects), rows, objects, stuck)
      ensures r.Refused? ==> rows == old(rows) && objects == old(objects) && With(batch, TriggerRefused, rows, stuck) != []
      ensures r.Result? ==>
                rows == Marked(old(rows), PurgedClips(batch, old(rows), bad))
                && With(batch, TriggerRefused, old(rows), bad) == []
                && r.purged == With(batch, Purged, old(rows), bad)
                && r.changed == With(batch, Changed, old(rows), bad)
                && r.failed == With(batch, DeleteFailed, old(rows), bad)
                && MoreFails(batch, old(rows), bad, stuck)
                && (Steady(batch, old(rows), bad, stuck) ==> objects == Without(old(objects), PurgedClips(batch, old(rows), stuck)))
      ensures Calm() ==> r.Refused? || (r.Result? && Steady(batch, old(rows), bad, stuck))
    {
      hide PartlyPurged, With, Marked, Without, FateOf, Distinct, Steady, MoreFails, Calm, PurgedClips, ClipSet;
      bad := stuck;
      PartlyNothing(ClipSet(batch), rows, objects, stuck);
      var hit := Strikes();
      if hit {
        return Died, bad;
      }
      hit := Strikes();
      if hit {
        return Broken, bad;
      }
      var locked, changed := LockRows(batch);
      if locked == [] {
        NoneLocked(batch, rows, objects, stuck);
        SteadyItself(batch, rows, stuck);
        return Result([], changed, []), bad;
      }
      var vetoed := exists c :: c in locked && rows[c.id].refused;
      if vetoed {
        VetoedFate(batch, rows, stuck);
        return Refused, bad;
      }
      hit := Strikes();
      if hit {
        return Broken, bad;
      }
      r, bad := DeleteAndCommit(batch, locked, changed);
    }

    method Note(id: nat, note: Note)
      modifies this`log
      ensures log == old(log) + [Entry(id, note)]
    {
      log := log + [Entry(id, note)];
    }

    /** One more error; true when there are now too many. */
    method Fail(id: nat, note: Note) returns (abort: bool)
      modifies this`log, this`errors
      ensures log == old(log) + [Entry(id, note)] && errors == old(errors) + 1
      ensures abort <==> errors >= opts.maxErrors
    {
      errors := errors + 1;
      Note(id, note);
      return errors >= opts.maxErrors;
    }

    /**
     The dispositions of a committed batch. When failed deletes reach the error limit the run stops there, and neither
     the later failures nor the purged clips get an entry.
     */
    method Report(r: BatchResult, ghost batch: seq<Clip>, ghost was: Rows, ghost bad: set<ObjectName>) returns (flow: Flow)
      requires Distinct(batch) && r.Result? && With(batch, TriggerRefused, was, bad) == []
      requires r.changed == With(batch, Changed, was, bad) && r.failed == With(batch, DeleteFailed, was, bad)
      requires r.purged == With(batch, Purged, was, bad)
      modifies this`log, this`purged, this`purgedBytes, this`errors
      ensures log == old(log) + Reported(r.changed, r.failed, r.purged, old(errors), opts.maxErrors)
      ensures flow == if |r.failed| < ErrorsLeft(old(errors), opts.maxErrors) then Continue else Abort
      ensures errors == old(errors) + if flow.Continue? then |r.failed| else ErrorsLeft(old(errors), opts.maxErrors)
      ensures flow.Abort? ==> errors >= opts.maxErrors
      ensures Grew(old(log), log, Ids(batch)) && Truthful(old(log), log, ClipSet(batch), was, bad)
      ensures Accounts(old(log), log, Ids(batch))
              <==> flow.Continue? || (|r.failed| == ErrorsLeft(old(errors), opts.maxErrors) && r.purged == [])
      ensures flow.Abort? ==> forall c :: c in r.purged ==> Count(log, c.id) == Count(old(log), c.id)
    {
      hide With, Accounts, Grew, Truthful, FateOf, Ids, Distinct, Reported, ErrorsLeft, Count;
      ReportedAccounts(log, batch, was, bad, errors, opts.maxErrors);
      flow := LogFates(r.changed, r.failed, r.purged);
    }

    method LogFates(changed: seq<Clip>, failed: seq<Clip>, gone: seq<Clip>) returns (flow: Flow)
      modifies this`log, this`purged, this`purgedBytes, this`errors
      ensures log == old(log) + Reported(changed, failed, gone, old(errors), opts.maxErrors)
      ensures flow == if |failed| < ErrorsLeft(old(errors), opts.maxErrors) then Continue else Abort
      ensures errors == old(errors) + if flow.Continue? then |failed| else ErrorsLeft(old(errors), opts.maxErrors)
      ensures flow.Abort? ==> errors >= opts.maxErrors
    {
      LogChanged(changed);
      flow := LogFailed(failed);
      if flow.Continue? {
        LogPurged(gone);
      }
    }

    method LogChanged(changed: seq<Clip>)
      modifies this`log
      ensures log == old(log) + Entries(changed, Changed)
    {
      for i := 0 to |changed|
        invariant log == old(log) + Entries(changed[..i], Changed)
      {
        EntriesNext(changed, i, Changed);
        Note(changed[i].id, Done(Changed));
      }
      assert changed[..|changed|] == changed;
    }

    /** One entry per failed delete, until the error limit is reached. */
    method LogFailed(failed: seq<Clip>) returns (flow: Flow)
      modifies this`log, this`errors
      ensures flow == if |failed| < ErrorsLeft(old(errors), opts.maxErrors) then Continue else Abort
      ensures var n := if flow.Continue? then |failed| else ErrorsLeft(old(errors), opts.maxErrors);
              errors == old(errors) + n && n <= |failed| && log == old(log) + Entries(failed[..n], DeleteFailed)
      ensures flow.Abort? ==> errors >= opts.maxErrors
    {
      for i := 0 to |failed|
        invariant log == old(log) + Entries(failed[..i], DeleteFailed)
        invariant errors == old(errors) + i && (i > 0 ==> errors < opts.maxErrors)
      {
        EntriesNext(failed, i, DeleteFailed);
        var abort := Fail(failed[i].id, Done(DeleteFailed));
        if abort {
          return Abort;
        }
      }
      return Continue;
    }

    method LogPurged(gone: seq<Clip>)
      modifies this`log, this`purged, this`purgedBytes
      ensures log == old(log) + Entries(gone, Purged)
    {
      for i := 0 to |gone|
        invariant log == old(log) + Entries(gone[..i], Purged)
      {
        EntriesNext(gone, i, Purged);
        purged, purgedBytes := purged + 1, purgedBytes + gone[i].size;
        Note(gone[i].id, Done(Purged));
      }
      assert gone[..|gone|] == gone;
    }

    /** One error line for every clip of a batch that could not be purged. */
    method NoteAll(batch: seq<Clip>, note: Note)
      requires Distinct(batch)
      modifies this`log
      ensures Accounts(old(log), log, Ids(batch))
    {
      hide Accounts, Ids;
      AccountsNothing(log);
      IdsNone();
      for i := 0 to |batch|
        invariant Accounts(old(log), log, Ids(batch[..i]))
      {
        IdsNext(batch, i);
        AccountsOne(old(log), log, Ids(batch[..i]), Entry(batch[i].id, note));
        Note(batch[i].id, note);
      }
      assert batch[..|batch|] == batch;
    }

    /**
     Purge a batch, halving it while the retention trigger refuses it. Unless a transaction broke off or a delete
     failed that need not have, this is the same as purging each clip by itself, every clip getting exactly one
     disposition, its own.
     */
    method PurgeSplitting(batch: seq<Clip>) returns (flow: Flow, ghost clean: bool)
      requires Keyed(rows) && Distinct(batch) && batch != []
      modifies this`rows, this`objects, this`log, this`purged, this`purgedBytes, this`errors, this`cancelled, this`chances
      ensures Keyed(rows) && PartlyPurged(ClipSet(batch), old(rows), old(objects), rows, objects, stuck)
      ensures Grew(old(log), log, Ids(batch)) && errors >= old(errors) && (old(cancelled) ==> cancelled)
      ensures flow.Abort? ==> errors >= opts.maxErrors
      ensures flow.Continue? && !cancelled ==> Accounts(old(log), log, Ids(batch))
      ensures flow.Continue? && !clean ==> cancelled || errors > old(errors)
      ensures Calm() ==> cancelled == old(cancelled) && !flow.Dead? && (flow.Continue? ==> clean)
      ensures Calm() && NoneStuck(batch, stuck) ==> flow.Continue? && errors == old(errors)
      ensures clean ==> flow.Continue? && Refines(batch, old(rows), old(objects), old(log), rows, objects, log, stuck)
      decreases |batch|
    {
      hide PartlyPurged, Grew, Accounts, Truthful, FateOf, Marked, Without, PurgeEach, With, Keyed, Steady, Reported;
      ghost var was, held, before := rows, objects, log;
      GrewNothing(log, Ids(batch));
      var r;
      ghost var bad;
      r, bad := PurgeBatch(batch);
      PartlyKeyed(ClipSet(batch), was, held, rows, objects, stuck);
      match r {
        case Died => return Dead, false;
        case Refused =>
          if |batch| == 1 {
            Note(batch[0].id, Done(TriggerRefused));
            OneRefused(batch, was, held, before, stuck);
            AccountsGrew(before, log, Ids(batch));
            return Continue, true;
          }
          var mid := |batch| / 2;
          HalvesDistinct(batch, mid);
          flow, clean := PurgeSplitting(batch[..mid]);
          ghost var rows1, objects1, log1 := rows, objects, log;
          PartlyMore(ClipSet(batch[..mid]), ClipSet(batch), was, held, rows1, objects1, stuck);
          GrewThen(before, before, log1, {}, Ids(batch[..mid]), Ids(batch)) by { GrewNothing(before, {}); }
          if !flow.Continue? {
            NoneStuckHalves(batch, mid, stuck);
            return flow, false;
          }
          NoneStuckHalves(batch, mid, stuck);
          ghost var rest;
          flow, rest := PurgeSplitting(batch[mid..]);
          PartlyMore(ClipSet(batch[mid..]), ClipSet(batch), rows1, objects1, rows, objects, stuck);
          PartlyThen(ClipSet(batch), was, held, rows1, objects1, rows, objects, stuck);
          GrewThen(before, log1, log, Ids(batch[..mid]), Ids(batch[mid..]), Ids(batch));
          if flow.Continue? && !cancelled {
            AccountsThen(before, log1, log, Ids(batch[..mid]), Ids(batch[mid..]));
          }
          clean := clean && rest;
          if clean {
            RefinesThen(batch, mid, was, held, before, rows1, objects1, log1, rows, objects, log, stuck);
          }
        case Broken =>
          var stop := Poll();
          if stop {
            return Continue, false;
          }
          errors := errors + 1;
          NoteAll(batch, BatchFailed);
          AccountsGrew(before, log, Ids(batch));
          return if errors >= opts.maxErrors then Abort else Continue, false;
        case Result(_, _, _) =>
          flow := Report(r, batch, was, bad);
          NoneStuckFails(batch, was, bad, stuck);
          clean := flow.Continue? && Steady(batch, was, bad, stuck);
          BatchIsEach(batch, was, held, stuck);
          UnsteadyFails(batch, was, bad, stuck);
          if clean {
            SteadyTruth(before, log, batch, was, bad, stuck);
          }
          return;
      }
    }

    /**
     HEAD the sampled sources, hashing every `shaEvery`th in full. What is sampled depends only on the running
     count; what a HEAD finds depends only on the store, unless the store cannot be reached.
     */
    method HeadBatch(batch: seq<Clip>) returns (heads: seq<Head>)
      modifies this`headN, this`chances
      ensures Calm() ==> forall i :: 0 <= i < |heads| ==> !heads[i].Unreachable?
      ensures |heads| == |batch| && headN == old(headN) + |batch|
      ensures forall i :: 0 <= i < |batch| ==>
                HeadTells(batch[i], heads[i], FullHash(old(headN) + i + 1, opts.shaEvery), opts.headAll, objects)
    {
      heads := [];
      for i := 0 to |batch|
        invariant |heads| == i && headN == old(headN) + i
        invariant Calm() ==> forall k :: 0 <= k < i ==> !heads[k].Unreachable?
        invariant forall k :: 0 <= k < i ==>
                    HeadTells(batch[k], heads[k], FullHash(old(headN) + k + 1, opts.shaEvery), opts.headAll, objects)
      {
        headN := headN + 1;
        var full := FullHash(headN, opts.shaEvery);
        var head := ReadSource(batch[i], full);
        heads := heads + [head];
      }
    }

    method ReadSource(c: Clip, full: bool) returns (head: Head)
      modifies this`chances
      ensures HeadTells(c, head, full, opts.headAll, objects) && (Calm() ==> !head.Unreachable?)
    {
      if !full && !opts.headAll {
        return Unsampled;
      }
      var hit := Strikes();
      if hit {
        return Unreachable;
      }
      if c.key !in objects {
        return Absent;
      }
      if objects[c.key].size != c.size {
        return WrongSize;
      }
      if !full {
        return Present;
      }
      hit := Strikes();
      if hit {
        return Unreachable;
      }
      return if objects[c.key].sha == c.sha then ShaChecked else WrongSha;
    }

    /** The clips of a batch that the source checks let through; the others get their disposition here. */
    method Screen(batch: seq<Clip>, heads: seq<Head>) returns (flow: Flow, ready: seq<Clip>, ghost done: set<nat>, settled: bool)
      requires Distinct(batch) && |heads| == |batch|
      requires forall i :: 0 <= i < |batch| ==> HeadPossible(batch[i], heads[i], opts.headAll, objects)
      modifies this`log, this`errors, this`cancelled, this`chances
      ensures (forall i :: 0 <= i < |batch| ==> !heads[i].Unreachable?) ==>
                flow.Continue? && settled && errors == old(errors) && cancelled == old(cancelled)
      ensures Grew(old(log), log, Ids(batch)) && errors >= old(errors) && (old(cancelled) ==> cancelled)
      ensures flow.Abort? ==> errors >= opts.maxErrors
      ensures flow == if errors > old(errors) && errors >= opts.maxErrors then Abort else Continue
      ensures flow.Continue? && settled ==>
                Distinct(ready) && ClipSet(ready) <= ClipSet(batch) && done !! Ids(ready) && done + Ids(ready) == Ids(batch)
                && Accounts(old(log), log, done)
      ensures flow.Continue? && !settled ==> cancelled
      ensures flow.Continue? && settled ==> HeadsTold(batch, heads, |batch|, ready, old(log), log)
      ensures flow.Continue? && settled && errors == old(errors) && Sound(batch, objects) ==> ready == batch && log == old(log)
    {
      hide Accounts, Grew, Ids, Distinct;
      ghost var before := log;
      ready, done := [], {};
      AccountsNothing(log);
      IdsNone();
      DistinctNone();
      for i := 0 to |batch|
        invariant Distinct(ready) && ClipSet(ready) <= ClipSet(batch) && done !! Ids(ready) && done + Ids(ready) == Ids(batch[..i])
        invariant Accounts(before, log, done) && errors >= old(errors) && (old(cancelled) ==> cancelled)
        invariant errors > old(errors) ==> errors < opts.maxErrors
        invariant (forall k :: 0 <= k < |batch| ==> !heads[k].Unreachable?) ==> errors == old(errors) && cancelled == old(cancelled)
        invariant errors == old(errors) && Sound(batch, objects) ==> ready == batch[..i] && log == old(log)
        invariant HeadsTold(batch, heads, i, ready, before, log)
      {
        hide HeadsTold;
        var c := batch[i];
        ghost var mid, still := log, ready;
        IdsNext(batch, i);
        NextReady(batch, i, ready, done);
        AccountsOne(before, log, done, Entry(c.id, HeadFailed));
        AccountsOne(before, log, done, Entry(c.id, Skip(SizeMismatch)));
        AccountsOne(before, log, done, Entry(c.id, Skip(ShaMismatch)));
        match heads[i] {
          case Unreachable =>
            var stop := Poll();
            if stop {
              AccountsPart(before, log, done, batch, i);
              return Continue, ready, done, false;
            }
            var abort := Fail(c.id, HeadFailed);
            done := done + {c.id};
            if abort {
              AccountsPart(before, log, done, batch, i + 1);
              return Abort, ready, done, false;
            }
          case WrongSize =>
            Note(c.id, Skip(SizeMismatch));
            done := done + {c.id};
          case WrongSha =>
            Note(c.id, Skip(ShaMismatch));
            done := done + {c.id};
          case _ =>
            ready := ready + [c];
        }
        HeadTold(batch, heads, i, still, ready, before, mid, log);
      }
      assert batch[..|batch|] == batch;
      AccountsPart(before, log, done, batch, |batch|);
      return Continue, ready, done, true;
    }

    /** Source checks, then the purge, or in a dry run the eligible lines. */
    method ProcessBatch(batch: seq<Clip>) returns (flow: Flow, ghost clean: bool)
      requires Keyed(rows) && Distinct(batch)
      modifies this`rows, this`objects, this`log, this`purged, this`purgedBytes, this`errors, this`cancelled, this`headN, this`chances
      ensures Calm() ==> cancelled == old(cancelled) && !flow.Dead? && (flow.Continue? ==> clean)
      ensures Calm() && NoneStuck(batch, stuck) ==> flow.Continue? && errors == old(errors)
      ensures Keyed(rows) && PartlyPurged(ClipSet(batch), old(rows), old(objects), rows, objects, stuck)
      ensures Grew(old(log), log, Ids(batch)) && errors >= old(errors) && (old(cancelled) ==> cancelled)
      ensures flow.Abort? ==> errors >= opts.maxErrors
      ensures flow.Continue? && !cancelled ==> Accounts(old(log), log, Ids(batch))
      ensures !opts.apply ==> rows == old(rows) && objects == old(objects)
      ensures clean && Sound(batch, old(objects)) && opts.apply ==>
                Refines(batch, old(rows), old(objects), old(log), rows, objects, log, stuck)
      ensures flow.Continue? && !clean ==> cancelled || errors > old(errors)
      ensures forall i :: 0 <= i < |batch| && Differs(batch[i], old(headN) + i, opts, old(objects)) ==>
                Spared(batch, i, old(rows), old(objects), rows, objects)
    {
      hide Accounts, Grew, Ids, Distinct, Refines, PartlyPurged, HeadTells, HeadsTold, Differs, Spared;
      ghost var before := log;
      PartlyNothing(ClipSet(batch), rows, objects, stuck);
      var errorsBefore := errors;
      var heads := HeadBatch(batch);
      forall i | 0 <= i < |batch| ensures HeadPossible(batch[i], heads[i], opts.headAll, objects) {
        assert HeadTells(batch[i], heads[i], FullHash(old(headN) + i + 1, opts.shaEvery), opts.headAll, objects);
      }
      SparedAlready(batch, rows, objects);
      ghost var done;
      var ready, settled;
      flow, ready, done, settled := Screen(batch, heads);
      if !flow.Continue? || !settled {
        return flow, false;
      }
      clean := errors == errorsBefore;
      ghost var mid := log;
      AccountsGrew(before, mid, done);
      GrewNothing(mid, {});
      if ready == [] {
        IdsNone();
        assert done == Ids(batch);
        NothingRefined(batch, rows, objects, log, stuck);
        return Continue, clean;
      }
      if !opts.apply {
        NoteAll(ready, Eligible);
        AccountsThen(before, mid, log, done, Ids(ready));
        AccountsGrew(before, log, Ids(batch));
        return Continue, clean;
      }
      ghost var split;
      NoneStuckPart(batch, ready, stuck);
      flow, split := PurgeSplitting(ready);
      forall i | 0 <= i < |batch| && Differs(batch[i], old(headN) + i, opts, old(objects))
        ensures Spared(batch, i, old(rows), old(objects), rows, objects)
      {
        DifferingIsSpared(batch, heads, ready, i, old(headN), opts, before, mid, old(rows), old(objects), rows, objects, stuck);
      }
      PartlyMore(ClipSet(ready), ClipSet(batch), old(rows), old(objects), rows, objects, stuck);
      GrewThen(before, mid, log, done, Ids(ready), Ids(batch));
      if flow.Continue? && !cancelled {
        AccountsThen(before, mid, log, done, Ids(ready));
      }
      clean := clean && split;
    }
  }

  /** No clip's object is one the store always refuses to delete. */
  predicate NoneStuck(batch: seq<Clip>, stuck: set<ObjectName>) { forall i :: 0 <= i < |batch| ==> batch[i].key !in stuck }

  lemma NoneStuckPart(batch: seq<Clip>, part: seq<Clip>, stuck: set<ObjectName>)
    requires ClipSet(part) <= ClipSet(batch)
    ensures NoneStuck(batch, stuck) ==> NoneStuck(part, stuck)
  {
    forall i | 0 <= i < |part| ensures part[i] in batch { assert part[i] in ClipSet(part); }
  }

  lemma NoneStuckHalves(batch: seq<Clip>, mid: nat, stuck: set<ObjectName>)
    requires mid <= |batch|
    ensures NoneStuck(batch, stuck) ==> NoneStuck(batch[..mid], stuck) && NoneStuck(batch[mid..], stuck)
  {
  }

  lemma NoneStuckFails(batch: seq<Clip>, rows: Rows, bad: set<ObjectName>, stuck: set<ObjectName>)
    ensures NoneStuck(batch, stuck) && Steady(batch, rows, bad, stuck) ==> With(batch, DeleteFailed, rows, bad) == []
  {
    if NoneStuck(batch, stuck) && Steady(batch, rows, bad, stuck) {
      forall c | c in batch ensures !FateOf(c, rows, bad).DeleteFailed? {
        assert FateOf(c, rows, bad) == FateOf(c, rows, stuck);
      }
      EmptyWith(batch, DeleteFailed, rows, bad);
    }
  }

  lemma SteadyItself(batch: seq<Clip>, rows: Rows, stuck: set<ObjectName>)
    ensures Steady(batch, rows, stuck, stuck)
  {
  }

  /** If exactly the stuck keys of the locked clips fail, every clip has the fate it has by itself. */
  lemma CalmIsSteady(batch: seq<Clip>, rows: Rows, locked: seq<Clip>, bad: set<ObjectName>, stuck: set<ObjectName>)
    requires locked == Lockables(batch, rows) && bad == (set c | c in locked :: c.key) * stuck
    ensures Steady(batch, rows, bad, stuck)
  {
    forall c | c in batch ensures FateOf(c, rows, bad) == FateOf(c, rows, stuck) {
      if Lockable(c, rows) { assert c in locked; }
    }
  }

  /** What the checks of the first `n` clips came to: passed on, or kept back with the entry of what was found. */
  ghost predicate HeadsTold(batch: seq<Clip>, heads: seq<Head>, n: nat, ready: seq<Clip>, before: seq<Entry>, log: seq<Entry>)
    requires |heads| == |batch|
  {
    n <= |batch| && before <= log
    && (forall c :: c in ready ==> c in batch[..n])
    && forall i :: 0 <= i < n ==>
         var c, entries := batch[i], log[|before|..];
         match heads[i]
         case WrongSha => c !in ready && Entry(c.id, Skip(ShaMismatch)) in entries
         case WrongSize => c !in ready && Entry(c.id, Skip(SizeMismatch)) in entries
         case Unreachable => c !in ready && Entry(c.id, HeadFailed) in entries
         case _ => c in ready
  }

  lemma HeadTold(batch: seq<Clip>, heads: seq<Head>, i: nat, ready: seq<Clip>, ready': seq<Clip>, before: seq<Entry>, mid: seq<Entry>,
                 log: seq<Entry>)
    requires |heads| == |batch| && i < |batch| && Distinct(batch) && HeadsTold(batch, heads, i, ready, before, mid)
    requires match heads[i]
             case WrongSha => ready' == ready && log == mid + [Entry(batch[i].id, Skip(ShaMismatch))]
             case WrongSize => ready' == ready && log == mid + [Entry(batch[i].id, Skip(SizeMismatch))]
             case Unreachable => ready' == ready && log == mid + [Entry(batch[i].id, HeadFailed)]
             case _ => ready' == ready + [batch[i]] && log == mid
    ensures HeadsTold(batch, heads, i + 1, ready', before, log)
  {
    assert forall e :: e in mid[|before|..] ==> e in log[|before|..] by {
      assert log[|before|..] == mid[|before|..] + log[|mid|..];
    }
    assert log != mid ==> log[|log| - 1] in log[|before|..];
    assert batch[..i + 1] == batch[..i] + [batch[i]];
    assert batch[i] !in batch[..i];
  }

  /** A source that this run reads, the `n`th counting from zero, and that is not what its row records. */
  predicate Differs(c: Clip, n: nat, opts: Options, objects: Objects) {
    c.key in objects
    && var hashed := opts.shaEvery > 0 && n % opts.shaEvery == 0;
    ((hashed || opts.headAll) && objects[c.key].size != c.size) || (hashed && objects[c.key].sha != c.sha)
  }

  /** The clip's row and object are as they were, unless another clip of the batch is stored under the same key. */
  ghost predicate Spared(batch: seq<Clip>, i: nat, rows: Rows, objects: Objects, rows': Rows, objects': Objects)
    requires i < |batch|
  {
    var c := batch[i];
    (c.id in rows ==> c.id in rows' && rows'[c.id] == rows[c.id])
    && ((forall k :: 0 <= k < |batch| && k != i ==> batch[k].key != c.key) && c.key in objects ==>
          c.key in objects' && objects'[c.key] == objects[c.key])
  }

  lemma SparedAlready(batch: seq<Clip>, rows: Rows, objects: Objects)
    ensures forall i :: 0 <= i < |batch| ==> Spared(batch, i, rows, objects, rows, objects)
  {
  }

  /** The first source is hashed in full, and every `shaEvery`th after it. */
  lemma HashedEvery(n: nat, shaEvery: nat)
    ensures FullHash(n + 1, shaEvery) <==> shaEvery > 0 && n % shaEvery == 0
  {
    if shaEvery > 1 {
      var q, r := n / shaEvery, n % shaEvery;
      assert n == shaEvery * q + r;
      if r + 1 < shaEvery {
        Remainder(n + 1, shaEvery, q, r + 1);
      } else {
        assert n + 1 == shaEvery * (q + 1) + 0;
        Remainder(n + 1, shaEvery, q + 1, 0);
      }
    }
  }

  lemma Remainder(n: nat, d: nat, q: nat, r: nat)
    requires d > 0 && n == d * q + r && r < d
    ensures n % d == r
  {
    var k := n / d;
    assert n == d * k + n % d;
    TimesMonotone(d, k, q);
    TimesMonotone(d, q, k);
  }

  lemma TimesMonotone(d: nat, a: nat, b: nat)
    ensures a < b ==> d * a + d <= d * b
  {
    if a < b {
      assert d * b == d * a + d * (b - a) && b - a >= 1;
      assert d * (b - a) >= d;
    }
  }

  lemma DifferingIsSpared(batch: seq<Clip>, heads: seq<Head>, ready: seq<Clip>, i: nat, headN: nat, opts: Options, before: seq<Entry>,
                          log: seq<Entry>, rows: Rows, objects: Objects, rows': Rows, objects': Objects, stuck: set<ObjectName>)
    requires Keyed(rows) && Distinct(batch) && |heads| == |batch| && i < |batch| && Differs(batch[i], headN + i, opts, objects)
    requires HeadTells(batch[i], heads[i], FullHash(headN + i + 1, opts.shaEvery), opts.headAll, objects)
    requires HeadsTold(batch, heads, |batch|, ready, before, log)
    requires PartlyPurged(ClipSet(ready), rows, objects, rows', objects', stuck)
    ensures Spared(batch, i, rows, objects, rows', objects')
  {
    HashedEvery(headN + i, opts.shaEvery);
    var c := batch[i];
    assert c !in ready;
    assert batch[..|batch|] == batch;
    forall d | d in ready ensures d.id != c.id && exists k :: 0 <= k < |batch| && k != i && batch[k] == d {
      var k :| 0 <= k < |batch| && batch[k] == d;
    }
  }

  predicate FullHash(n: nat, shaEvery: nat) {
    shaEvery > 0 && n % shaEvery == 1 % shaEvery
  }

  predicate HeadTells(c: Clip, head: Head, full: bool, all: bool, objects: Objects) {
    match head
    case Unsampled => !full && !all
    case Unreachable => full || all
    case Absent => (full || all) && c.key !in objects
    case WrongSize => (full || all) && c.key in objects && objects[c.key].size != c.size
    case Present => all && !full && c.key in objects && objects[c.key].size == c.size
    case ShaChecked => full && c.key in objects && objects[c.key] == Blob(c.size, c.sha)
    case WrongSha => full && c.key in objects && objects[c.key].size == c.size && objects[c.key].sha != c.sha
  }

  predicate HeadPossible(c: Clip, head: Head, all: bool, objects: Objects) {
    exists full :: HeadTells(c, head, full, all, objects)
  }

  /** The store holds no bytes that differ from what the rows record. */
  predicate Sound(batch: seq<Clip>, objects: Objects) {
    forall c :: c in batch && c.key in objects ==> objects[c.key] == Blob(c.size, c.sha)
  }

  lemma DistinctNone()
    ensures Distinct([])
  {
  }

  lemma NextReady(batch: seq<Clip>, i: nat, ready: seq<Clip>, done: set<nat>)
    requires i < |batch| && Distinct(batch) && Distinct(ready) && ClipSet(ready) <= ClipSet(batch)
    requires done !! Ids(ready) && done + Ids(ready) == Ids(batch[..i]) && batch[i].id !in Ids(batch[..i])
    requires Ids(batch[..i + 1]) == Ids(batch[..i]) + {batch[i].id}
    ensures Distinct(ready + [batch[i]]) && ClipSet(ready + [batch[i]]) <= ClipSet(batch)
    ensures batch[i].id !in done && done !! Ids(ready + [batch[i]]) && done + Ids(ready + [batch[i]]) == Ids(batch[..i + 1])
    ensures (done + {batch[i].id}) !! Ids(ready) && done + {batch[i].id} + Ids(ready) == Ids(batch[..i + 1])
  {
    assert Ids(ready + [batch[i]]) == Ids(ready) + {batch[i].id};
    forall d | d in ready ensures d.id != batch[i].id { assert d.id in Ids(ready); }
  }

  lemma AccountsPart(before: seq<Entry>, log: seq<Entry>, done: set<nat>, batch: seq<Clip>, i: nat)
    requires i <= |batch| && Accounts(before, log, done) && done <= Ids(batch[..i])
    ensures Grew(before, log, Ids(batch))
  {
  }

  lemma NothingRefined(batch: seq<Clip>, rows: Rows, objects: Objects, log: seq<Entry>, stuck: set<ObjectName>)
    ensures batch == [] ==> Refines(batch, rows, objects, log, rows, objects, log, stuck)
  {
    if batch == [] {
      AccountsNothing(log);
    }
  }

  /** Same rows, objects and dispositions as one transaction per clip. */
  ghost predicate Refines(batch: seq<Clip>, was: Rows, held: Objects, before: seq<Entry>, rows: Rows, objects: Objects, log: seq<Entry>,
                          stuck: set<ObjectName>) {
    var each := PurgeEach(batch, was, held, stuck);
    rows == each.rows && objects == each.objects
    && Accounts(before, log, Ids(batch)) && Truthful(before, log, ClipSet(batch), was, stuck)
  }

  lemma RefinesThen(batch: seq<Clip>, mid: nat, was: Rows, held: Objects, before: seq<Entry>, rows1: Rows, objects1: Objects,
                    log1: seq<Entry>, rows: Rows, objects: Objects, log: seq<Entry>, stuck: set<ObjectName>)
    requires Keyed(was) && Distinct(batch) && mid <= |batch|
    requires Refines(batch[..mid], was, held, before, rows1, objects1, log1, stuck)
    requires Refines(batch[mid..], rows1, objects1, log1, rows, objects, log, stuck)
    ensures Refines(batch, was, held, before, rows, objects, log, stuck)
  {
    hide Accounts, Truthful, PurgeEach, Ids;
    HalvesDistinct(batch, mid);
    EachThen(batch[..mid], batch[mid..], was, held, stuck);
    AccountsThen(before, log1, log, Ids(batch[..mid]), Ids(batch[mid..]));
    TruthfulThen(before, log1, log, batch[..mid], batch[mid..], was, held, stuck);
  }

  lemma OneRefused(batch: seq<Clip>, rows: Rows, objects: Objects, before: seq<Entry>, stuck: set<ObjectName>)
    requires |batch| == 1 && With(batch, TriggerRefused, rows, stuck) != []
    ensures Refines(batch, rows, objects, before, rows, objects, before + [Entry(batch[0].id, Done(TriggerRefused))], stuck)
  {
    assert batch[..0] == [] && PurgeEach([], rows, objects, stuck) == Outcome(rows, objects, []);
    assert Ids(batch) == {} + {batch[0].id};
    AccountsNothing(before);
    AccountsOne(before, before, {}, Entry(batch[0].id, Done(TriggerRefused)));
    TruthfulNothing(before, ClipSet(batch), rows, stuck);
    TruthfulOne(before, before, batch[0], ClipSet(batch), rows, stuck);
  }

  lemma PartlyKeyed(clips: set<Clip>, rows: Rows, objects: Objects, rows': Rows, objects': Objects, stuck: set<ObjectName>)
    requires Keyed(rows) && PartlyPurged(clips, rows, objects, rows', objects', stuck)
    ensures Keyed(rows')
  {
  }

  lemma TruthfulNothing(log: seq<Entry>, clips: set<Clip>, rows: Rows, stuck: set<ObjectName>)
    ensures Truthful(log, log, clips, rows, stuck)
  {
  }

  lemma IdsNone()
    ensures Ids([]) == {}
  {
  }

  lemma MemberFate(c: Clip, batch: seq<Clip>, fate: Fate, rows: Rows, stuck: set<ObjectName>)
    requires c in With(batch, fate, rows, stuck)
    ensures c in ClipSet(batch) && c.id in Ids(batch) && FateOf(c, rows, stuck) == fate
    ensures forall f :: c.id in Ids(With(batch, f, rows, stuck)) && Distinct(batch) ==> f == fate
  {
    forall f | c.id in Ids(With(batch, f, rows, stuck)) && Distinct(batch) ensures f == fate {
      var d :| d in With(batch, f, rows, stuck) && d.id == c.id;
      var i :| 0 <= i < |batch| && batch[i] == c;
      var k :| 0 <= k < |batch| && batch[k] == d;
      assert i == k;
    }
  }

  lemma FatesDiffer(batch: seq<Clip>, a: Fate, b: Fate, rows: Rows, stuck: set<ObjectName>)
    requires Distinct(batch) && a != b
    ensures Ids(With(batch, a, rows, stuck)) !! Ids(With(batch, b, rows, stuck))
  {
    forall c | c in With(batch, a, rows, stuck) ensures c.id !in Ids(With(batch, b, rows, stuck)) {
      MemberFate(c, batch, a, rows, stuck);
    }
  }

  /** Unless the trigger refused one, every clip of the batch was changed, purged or not deleted, and only one of these. */
  lemma FatesApart(batch: seq<Clip>, rows: Rows, stuck: set<ObjectName>)
    requires Distinct(batch) && With(batch, TriggerRefused, rows, stuck) == []
    ensures var changed, failed, purged := With(batch, Changed, rows, stuck), With(batch, DeleteFailed, rows, stuck),
                                           With(batch, Purged, rows, stuck);
            Distinct(changed) && Distinct(failed) && Distinct(purged)
            && Ids(changed) + Ids(failed) + Ids(purged) == Ids(batch)
            && Ids(changed) !! Ids(failed) && (Ids(changed) + Ids(failed)) !! Ids(purged)
  {
    FatesDiffer(batch, Changed, DeleteFailed, rows, stuck);
    FatesDiffer(batch, Changed, Purged, rows, stuck);
    FatesDiffer(batch, DeleteFailed, Purged, rows, stuck);
    WithDistinct(batch, Changed, rows, stuck);
    WithDistinct(batch, DeleteFailed, rows, stuck);
    WithDistinct(batch, Purged, rows, stuck);
    var changed, failed, purged := With(batch, Changed, rows, stuck), With(batch, DeleteFailed, rows, stuck),
                                   With(batch, Purged, rows, stuck);
    forall x | x in Ids(batch) ensures x in Ids(changed) + Ids(failed) + Ids(purged) {
      var c :| c in batch && c.id == x;
      assert c !in With(batch, TriggerRefused, rows, stuck);
      assert c in changed || c in failed || c in purged;
    }
  }

  /** How many more errors stop the run: the first one does if the limit is already reached. */
  function ErrorsLeft(errors: nat, maxErrors: nat): (n: nat)
    ensures n > 0
  {
    if errors < maxErrors then maxErrors - errors else 1
  }

  function Entries(clips: seq<Clip>, fate: Fate): seq<Entry> {
    seq(|clips|, i requires 0 <= i < |clips| => Entry(clips[i].id, Done(fate)))
  }

  /** The entries of a committed batch, in order. */
  function Reported(changed: seq<Clip>, failed: seq<Clip>, purged: seq<Clip>, errors: nat, maxErrors: nat): seq<Entry> {
    var n := ErrorsLeft(errors, maxErrors);
    Entries(changed, Changed)
    + if |failed| < n then Entries(failed, DeleteFailed) + Entries(purged, Purged) else Entries(failed[..n], DeleteFailed)
  }

  lemma EntriesNext(clips: seq<Clip>, i: nat, fate: Fate)
    requires i < |clips|
    ensures Entries(clips[..i + 1], fate) == Entries(clips[..i], fate) + [Entry(clips[i].id, Done(fate))]
  {
  }

  lemma {:induction false} AccountsEntries(before: seq<Entry>, log: seq<Entry>, ids: set<nat>, clips: seq<Clip>, fate: Fate)
    requires Distinct(clips) && Accounts(before, log, ids) && ids !! Ids(clips)
    ensures Accounts(before, log + Entries(clips, fate), ids + Ids(clips))
    decreases |clips|
  {
    if clips == [] {
      IdsNone();
      assert log + Entries(clips, fate) == log && ids + {} == ids;
    } else {
      var n := |clips| - 1;
      IdsNext(clips, n);
      assert clips[..n + 1] == clips;
      AccountsEntries(before, log, ids, clips[..n], fate);
      EntriesNext(clips, n, fate);
      AccountsOne(before, log + Entries(clips[..n], fate), ids + Ids(clips[..n]), Entry(clips[n].id, Done(fate)));
      assert log + Entries(clips[..n], fate) + [Entry(clips[n].id, Done(fate))] == log + Entries(clips, fate);
      assert ids + Ids(clips[..n]) + {clips[n].id} == ids + Ids(clips);
    }
  }

  /** The clips that get an entry. */
  function ReportedIds(batch: seq<Clip>, rows: Rows, bad: set<ObjectName>, errors: nat, maxErrors: nat): set<nat> {
    var n, failed := ErrorsLeft(errors, maxErrors), With(batch, DeleteFailed, rows, bad);
    Ids(With(batch, Changed, rows, bad))
    + if |failed| < n then Ids(failed) + Ids(With(batch, Purged, rows, bad)) else Ids(failed[..n])
  }

  lemma ReportedOnce(before: seq<Entry>, batch: seq<Clip>, rows: Rows, bad: set<ObjectName>, errors: nat, maxErrors: nat)
    requires Distinct(batch) && With(batch, TriggerRefused, rows, bad) == []
    ensures var log := before + Reported(With(batch, Changed, rows, bad), With(batch, DeleteFailed, rows, bad),
                                         With(batch, Purged, rows, bad), errors, maxErrors);
            Accounts(before, log, ReportedIds(batch, rows, bad, errors, maxErrors))
  {
    hide With, Accounts, FateOf, Ids;
    var changed, failed, purged := With(batch, Changed, rows, bad), With(batch, DeleteFailed, rows, bad), With(batch, Purged, rows, bad);
    var n := ErrorsLeft(errors, maxErrors);
    FatesApart(batch, rows, bad);
    AccountsNothing(before);
    AccountsEntries(before, before, {}, changed, Changed);
    assert {} + Ids(changed) == Ids(changed);
    var log1 := before + Entries(changed, Changed);
    if |failed| < n {
      AccountsEntries(before, log1, Ids(changed), failed, DeleteFailed);
      AccountsEntries(before, log1 + Entries(failed, DeleteFailed), Ids(changed) + Ids(failed), purged, Purged);
      assert log1 + Entries(failed, DeleteFailed) + Entries(purged, Purged)
             == before + (Entries(changed, Changed) + (Entries(failed, DeleteFailed) + Entries(purged, Purged)));
      assert Ids(changed) + Ids(failed) + Ids(purged) == Ids(changed) + (Ids(failed) + Ids(purged));
    } else {
      PartDistinct(failed, n);
      AccountsEntries(before, log1, Ids(changed), failed[..n], DeleteFailed);
      assert log1 + Entries(failed[..n], DeleteFailed) == before + (Entries(changed, Changed) + Entries(failed[..n], DeleteFailed));
    }
  }

  lemma PartDistinct(clips: seq<Clip>, n: nat)
    requires n <= |clips| && Distinct(clips)
    ensures Distinct(clips[..n]) && Ids(clips[..n]) <= Ids(clips)
    ensures Ids(clips[..n]) == Ids(clips) <==> n == |clips|
  {
    if n < |clips| {
      IdsNext(clips, n);
      assert clips[n] in clips;
      assert clips[n].id in Ids(clips) && clips[n].id !in Ids(clips[..n]);
    } else {
      assert clips[..n] == clips;
    }
  }

  /** All of a batch has entries exactly if the run goes on, or the last failure stops it with nothing purged. */
  lemma ReportedAll(batch: seq<Clip>, rows: Rows, bad: set<ObjectName>, errors: nat, maxErrors: nat)
    requires Distinct(batch) && With(batch, TriggerRefused, rows, bad) == []
    ensures var n, failed := ErrorsLeft(errors, maxErrors), With(batch, DeleteFailed, rows, bad);
            ReportedIds(batch, rows, bad, errors, maxErrors) <= Ids(batch)
            && (ReportedIds(batch, rows, bad, errors, maxErrors) == Ids(batch)
                <==> |failed| < n || (|failed| == n && With(batch, Purged, rows, bad) == []))
    ensures |With(batch, DeleteFailed, rows, bad)| >= ErrorsLeft(errors, maxErrors) ==>
              ReportedIds(batch, rows, bad, errors, maxErrors) !! Ids(With(batch, Purged, rows, bad))
  {
    hide With, FateOf;
    var changed, failed, purged := With(batch, Changed, rows, bad), With(batch, DeleteFailed, rows, bad), With(batch, Purged, rows, bad);
    var n := ErrorsLeft(errors, maxErrors);
    FatesApart(batch, rows, bad);
    if |failed| >= n {
      PartDistinct(failed, n);
      if n < |failed| {
        IdsNext(failed, n);
        assert failed[n] in failed && failed[n].id in Ids(failed);
        assert failed[n].id in Ids(batch) && failed[n].id !in ReportedIds(batch, rows, bad, errors, maxErrors);
      } else if purged != [] {
        assert purged[0] in purged && purged[0].id in Ids(purged);
        assert purged[0].id in Ids(batch) && purged[0].id !in ReportedIds(batch, rows, bad, errors, maxErrors);
      } else {
        assert failed[..n] == failed;
      }
    }
  }

  lemma AccountsWhat(before: seq<Entry>, log: seq<Entry>, a: set<nat>, b: set<nat>)
    requires Accounts(before, log, a)
    ensures Accounts(before, log, b) <==> a == b
  {
    if Accounts(before, log, b) {
      forall id ensures id in a <==> id in b {
        assert Count(log, id) == Count(log, id);
      }
    }
  }

  lemma ReportedTruth(before: seq<Entry>, batch: seq<Clip>, rows: Rows, bad: set<ObjectName>, errors: nat, maxErrors: nat)
    ensures var log := before + Reported(With(batch, Changed, rows, bad), With(batch, DeleteFailed, rows, bad),
                                         With(batch, Purged, rows, bad), errors, maxErrors);
            Truthful(before, log, ClipSet(batch), rows, bad)
  {
    hide FateOf;
    var changed, failed, purged := With(batch, Changed, rows, bad), With(batch, DeleteFailed, rows, bad), With(batch, Purged, rows, bad);
    var n := ErrorsLeft(errors, maxErrors);
    hide With, Truthful;
    var log1, log2 := before + Entries(changed, Changed), before + Entries(changed, Changed) + Entries(failed, DeleteFailed);
    TruthfulNothing(before, ClipSet(batch), rows, bad);
    WithMembers(batch, rows, bad);
    TruthfulEntries(before, before, changed, Changed, ClipSet(batch), rows, bad);
    if |failed| < n {
      TruthfulEntries(before, log1, failed, DeleteFailed, ClipSet(batch), rows, bad);
      TruthfulEntries(before, log2, purged, Purged, ClipSet(batch), rows, bad);
      assert log2 + Entries(purged, Purged) == before + Reported(changed, failed, purged, errors, maxErrors);
    } else {
      TruthfulEntries(before, log1, failed[..n], DeleteFailed, ClipSet(batch), rows, bad);
      assert log1 + Entries(failed[..n], DeleteFailed) == before + Reported(changed, failed, purged, errors, maxErrors);
    }
  }

  lemma WithMembers(batch: seq<Clip>, rows: Rows, bad: set<ObjectName>)
    ensures forall fate, c :: c in With(batch, fate, rows, bad) ==> c in ClipSet(batch) && FateOf(c, rows, bad) == fate
  {
  }

  lemma TruthfulEntries(before: seq<Entry>, log: seq<Entry>, clips: seq<Clip>, fate: Fate, all: set<Clip>, rows: Rows,
                        bad: set<ObjectName>)
    requires Truthful(before, log, all, rows, bad) && forall c :: c in clips ==> c in all && FateOf(c, rows, bad) == fate
    ensures Truthful(before, log + Entries(clips, fate), all, rows, bad)
  {
    hide FateOf;
    forall i | 0 <= i < |clips| ensures TruthfulEntry(Entries(clips, fate)[i], all, rows, bad) {
      assert clips[i] in clips;
    }
  }

  /** What the entries of a committed batch account for, in every case. */
  lemma ReportedAccounts(before: seq<Entry>, batch: seq<Clip>, rows: Rows, bad: set<ObjectName>, errors: nat, maxErrors: nat)
    requires Distinct(batch) && With(batch, TriggerRefused, rows, bad) == []
    ensures var failed, purged, n := With(batch, DeleteFailed, rows, bad), With(batch, Purged, rows, bad), ErrorsLeft(errors, maxErrors);
            var log := before + Reported(With(batch, Changed, rows, bad), failed, purged, errors, maxErrors);
            Grew(before, log, Ids(batch)) && Truthful(before, log, ClipSet(batch), rows, bad)
            && (Accounts(before, log, Ids(batch)) <==> |failed| < n || (|failed| == n && purged == []))
            && (|failed| >= n ==> forall c :: c in purged ==> Count(log, c.id) == Count(before, c.id))
  {
    var ids := ReportedIds(batch, rows, bad, errors, maxErrors);
    var log := before + Reported(With(batch, Changed, rows, bad), With(batch, DeleteFailed, rows, bad),
                                 With(batch, Purged, rows, bad), errors, maxErrors);
    ReportedOnce(before, batch, rows, bad, errors, maxErrors);
    ReportedAll(batch, rows, bad, errors, maxErrors);
    ReportedTruth(before, batch, rows, bad, errors, maxErrors);
    AccountsWhat(before, log, ids, Ids(batch));
    AccountsGrew(before, log, ids);
    hide With, FateOf, ReportedIds, Reported, Truthful;
    forall c | c in With(batch, Purged, rows, bad) && |With(batch, DeleteFailed, rows, bad)| >= ErrorsLeft(errors, maxErrors)
      ensures Count(log, c.id) == Count(before, c.id)
    {
      assert c.id in Ids(With(batch, Purged, rows, bad));
    }
  }

  const LOST := Clip(1, 1, 1, 1, 10)
  const GONE := Clip(2, 1, 1, 1, 20)

  /** Two clips, one that cannot be deleted, and a limit of one error: the other is purged and has no disposition. */
  lemma AbortLosesPurged(all: Facts)
    requires all.All()
    ensures var rows := map[1 := ClipRow(LOST, all, false, true, false), 2 := ClipRow(GONE, all, false, true, false)];
            var objects, batch := map[10 := Blob(1, 1), 20 := Blob(1, 1)], [LOST, GONE];
            2 in PurgeEach(batch, rows, objects, {10}).rows && PurgeEach(batch, rows, objects, {10}).rows[2].purged
            && var log := Reported(With(batch, Changed, rows, {10}), With(batch, DeleteFailed, rows, {10}),
                                   With(batch, Purged, rows, {10}), 0, 1);
            log == [Entry(1, Done(DeleteFailed))] && !Accounts([], log, Ids(batch))
  {
    var rows := map[1 := ClipRow(LOST, all, false, true, false), 2 := ClipRow(GONE, all, false, true, false)];
    var objects, batch := map[10 := Blob(1, 1), 20 := Blob(1, 1)], [LOST, GONE];
    assert FateOf(LOST, rows, {10}).DeleteFailed? && FateOf(GONE, rows, {10}).Purged?;
    hide FateOf, With, Accounts;
    GoneIsMarked(rows, objects);
    hide PurgeEach;
    forall fate { WithTwo(LOST, GONE, fate, rows, {10}); }
    ReportedAccounts([], batch, rows, {10}, 0, 1);
  }

  lemma GoneIsMarked(rows: Rows, objects: Objects)
    requires Keyed(rows) && 2 in rows && rows[2].clip == GONE && FateOf(GONE, rows, {10}).Purged?
    ensures 2 in PurgeEach([LOST, GONE], rows, objects, {10}).rows && PurgeEach([LOST, GONE], rows, objects, {10}).rows[2].purged
  {
    hide FateOf;
    BatchIsEach([LOST, GONE], rows, objects, {10});
    assert GONE in PurgedClips([LOST, GONE], rows, {10});
  }

  lemma WithTwo(a: Clip, b: Clip, fate: Fate, rows: Rows, bad: set<ObjectName>)
    ensures With([a, b], fate, rows, bad)
            == (if FateOf(a, rows, bad) == fate then [a] else []) + (if FateOf(b, rows, bad) == fate then [b] else [])
  {
    assert [a, b] == [a] + [b] && [a] == [] + [a];
    WithEnd([a], b, fate, rows, bad);
    WithEnd([], a, fate, rows, bad);
  }

  // ----- failed deletes -----

  /** Every clip whose delete always fails did fail. */
  ghost predicate MoreFails(batch: seq<Clip>, rows: Rows, bad: set<ObjectName>, stuck: set<ObjectName>) {
    forall c :: c in batch && FateOf(c, rows, stuck).DeleteFailed? ==> FateOf(c, rows, bad).DeleteFailed?
  }

  /** And no other did. */
  ghost predicate Steady(batch: seq<Clip>, rows: Rows, bad: set<ObjectName>, stuck: set<ObjectName>) {
    forall c :: c in batch ==> FateOf(c, rows, bad) == FateOf(c, rows, stuck)
  }

  lemma UnsteadyFails(batch: seq<Clip>, rows: Rows, bad: set<ObjectName>, stuck: set<ObjectName>)
    requires MoreFails(batch, rows, bad, stuck)
    ensures Steady(batch, rows, bad, stuck) || With(batch, DeleteFailed, rows, bad) != []
    ensures Steady(batch, rows, bad, stuck) ==> PurgedClips(batch, rows, bad) == PurgedClips(batch, rows, stuck)
  {
    if c :| c in batch && FateOf(c, rows, bad) != FateOf(c, rows, stuck) {
      assert c in With(batch, DeleteFailed, rows, bad);
    }
  }

  lemma SteadyTruth(before: seq<Entry>, log: seq<Entry>, batch: seq<Clip>, rows: Rows, bad: set<ObjectName>, stuck: set<ObjectName>)
    requires Truthful(before, log, ClipSet(batch), rows, bad) && Steady(batch, rows, bad, stuck)
    ensures Truthful(before, log, ClipSet(batch), rows, stuck)
  {
    hide FateOf;
    forall k | |before| <= k < |log| ensures TruthfulEntry(log[k], ClipSet(batch), rows, stuck) {
      assert TruthfulEntry(log[k], ClipSet(batch), rows, bad);
    }
  }

  lemma VetoedFate(batch: seq<Clip>, rows: Rows, stuck: set<ObjectName>)
    requires exists c :: c in Lockables(batch, rows) && rows[c.id].refused
    ensures With(batch, TriggerRefused, rows, stuck) != []
  {
    var c :| c in Lockables(batch, rows) && rows[c.id].refused;
    assert c in With(batch, TriggerRefused, rows, stuck);
  }

  lemma NoneLocked(batch: seq<Clip>, rows: Rows, objects: Objects, stuck: set<ObjectName>)
    requires Lockables(batch, rows) == []
    ensures PurgedClips(batch, rows, stuck) == {} && Marked(rows, {}) == rows && Without(objects, {}) == objects
    ensures With(batch, TriggerRefused, rows, stuck) == With(batch, Purged, rows, stuck) == []
    ensures With(batch, DeleteFailed, rows, stuck) == [] && MoreFails(batch, rows, stuck, stuck) && Steady(batch, rows, stuck, stuck)
  {
    WithLocked(batch, TriggerRefused, rows, stuck);
    WithLocked(batch, Purged, rows, stuck);
    WithLocked(batch, DeleteFailed, rows, stuck);
    assert forall c :: c in batch ==> !Lockable(c, rows);
  }

  /** Deleting keys of locked rows the trigger accepts is part of the work even if nothing is committed. */
  lemma DeletedIsPartly(batch: seq<Clip>, rows: Rows, before: Objects, after: Objects, locked: seq<Clip>, stuck: set<ObjectName>)
    requires locked == Lockables(batch, rows) && forall c :: c in locked ==> !rows[c.id].refused
    requires DeletedOnly(set c | c in locked :: c.key, stuck, before, after)
    ensures PartlyPurged(ClipSet(batch), rows, before, rows, after, stuck)
  {
    forall k | k in before && k !in after
      ensures exists c :: c in ClipSet(batch) && c.key == k && FateOf(c, rows, stuck).Purged?
    {
      var c :| c in locked && c.key == k;
      assert c in ClipSet(batch);
    }
  }

  lemma DeletedFates(locked: seq<Clip>, rows: Rows, failed: set<ObjectName>)
    requires forall c :: c in locked ==> Lockable(c, rows) && !rows[c.id].refused
    ensures forall c :: c in locked ==> FateOf(c, rows, failed) == if c.key in failed then DeleteFailed else Purged
  {
  }

  /** What became of the batch is what the failed keys of this request make of it. */
  lemma CommitIsMarked(batch: seq<Clip>, rows: Rows, locked: seq<Clip>, done: seq<Clip>, kept: seq<Clip>, changed: seq<Clip>,
                       bad: set<ObjectName>, stuck: set<ObjectName>)
    requires Keyed(rows) && locked == Lockables(batch, rows) && forall c :: c in locked ==> !rows[c.id].refused
    requires done == With(locked, Purged, rows, bad) && kept == With(locked, DeleteFailed, rows, bad)
    requires changed == With(batch, Changed, rows, stuck)
    ensures Update(Update(rows, set c | c in locked :: c.id, true), set c | c in kept :: c.id, false)
            == Marked(rows, PurgedClips(batch, rows, bad))
    ensures With(batch, TriggerRefused, rows, bad) == [] && changed == With(batch, Changed, rows, bad)
    ensures done == With(batch, Purged, rows, bad) && kept == With(batch, DeleteFailed, rows, bad)
  {
    WithLocked(batch, Purged, rows, bad);
    WithLocked(batch, DeleteFailed, rows, bad);
    ChangedAlike(batch, rows, bad, stuck);
    LockedAreDone(batch, rows, locked, kept, bad);
    hide With, FateOf;
    UpdateAndRevert(rows, ClipSet(locked), ClipSet(kept));
    assert (set c | c in ClipSet(locked) :: c.id) == (set c | c in locked :: c.id);
    assert (set c | c in ClipSet(kept) :: c.id) == (set c | c in kept :: c.id);
  }

  lemma {:induction false} ChangedAlike(batch: seq<Clip>, rows: Rows, a: set<ObjectName>, b: set<ObjectName>)
    ensures With(batch, Changed, rows, a) == With(batch, Changed, rows, b)
  {
    if batch != [] {
      var n := |batch| - 1;
      ChangedAlike(batch[..n], rows, a, b);
      UnlockableFate(batch[n], rows, a);
      UnlockableFate(batch[n], rows, b);
      hide FateOf;
    }
  }

  lemma CommitIsPartly(batch: seq<Clip>, rows: Rows, before: Objects, after: Objects, locked: seq<Clip>, bad: set<ObjectName>,
                       stuck: set<ObjectName>)
    requires Keyed(rows) && locked == Lockables(batch, rows) && forall c :: c in locked ==> !rows[c.id].refused
    requires var keys := set c | c in locked :: c.key;
             DeletedOnly(keys, stuck, before, after) && keys * stuck <= bad && forall k :: k in keys && k !in bad ==> k !in after
    ensures PartlyPurged(ClipSet(batch), rows, before, Marked(rows, PurgedClips(batch, rows, bad)), after, stuck)
    ensures MoreFails(batch, rows, bad, stuck)
    ensures Steady(batch, rows, bad, stuck) ==> after == Without(before, PurgedClips(batch, rows, stuck))
  {
    var keys := set c | c in locked :: c.key;
    DeletedIsPartly(batch, rows, before, after, locked, stuck);
    forall c | c in batch && Lockable(c, rows) ensures c in locked && c.key in keys {
    }
    assert forall c :: c in PurgedClips(batch, rows, bad) ==> c.key !in after && FateOf(c, rows, stuck).Purged?;
    if Steady(batch, rows, bad, stuck) {
      DeletedExactly(batch, rows, before, after, locked, bad, stuck);
    }
  }

  lemma LockedAreDone(batch: seq<Clip>, rows: Rows, locked: seq<Clip>, kept: seq<Clip>, bad: set<ObjectName>)
    requires locked == Lockables(batch, rows) && forall c :: c in locked ==> !rows[c.id].refused
    requires kept == With(locked, DeleteFailed, rows, bad)
    ensures ClipSet(locked) - ClipSet(kept) == PurgedClips(batch, rows, bad)
    ensures With(batch, TriggerRefused, rows, bad) == []
  {
    forall c | c in batch ensures !FateOf(c, rows, bad).TriggerRefused? {
      if Lockable(c, rows) {
        assert c in locked;
      }
    }
    EmptyWith(batch, TriggerRefused, rows, bad);
  }

  lemma DeletedExactly(batch: seq<Clip>, rows: Rows, before: Objects, after: Objects, locked: seq<Clip>, bad: set<ObjectName>,
                       stuck: set<ObjectName>)
    requires locked == Lockables(batch, rows) && forall c :: c in locked ==> !rows[c.id].refused
    requires var keys := set c | c in locked :: c.key;
             DeletedOnly(keys, stuck, before, after) && forall k :: k in keys && k !in bad ==> k !in after
    requires Steady(batch, rows, bad, stuck)
    ensures after == Without(before, PurgedClips(batch, rows, stuck))
  {
    var gone := PurgedClips(batch, rows, stuck);
    forall k | k in before ensures k in after <==> k in Without(before, gone) {
      if k !in after {
        var c :| c in locked && c.key == k;
        assert c in gone;
      }
      if k !in Without(before, gone) {
        var c :| c in gone && c.key == k;
        assert c in locked && FateOf(c, rows, bad).Purged?;
      }
    }
  }

  /** Of these keys some were deleted, none that the store refuses, and nothing else happened. */
  ghost predicate DeletedOnly(keys: set<ObjectName>, stuck: set<ObjectName>, before: Objects, after: Objects) {
    (forall k :: k in after ==> k in before && after[k] == before[k])
    && (forall k :: k in before && k !in after ==> k in keys && k !in stuck)
  }

  lemma NothingDeleted(keys: set<ObjectName>, stuck: set<ObjectName>, objects: Objects)
    ensures DeletedOnly(keys, stuck, objects, objects)
  {
  }

  lemma DeletesNext(keys: set<ObjectName>, todo: set<ObjectName>, k: ObjectName, stuck: set<ObjectName>, before: Objects, objects: Objects)
    requires k in todo && todo <= keys && DeletedOnly(keys, stuck, before, objects)
    ensures k !in stuck ==> DeletedOnly(keys, stuck, before, objects - {k})
    ensures (keys - (todo - {k})) * stuck == (keys - todo) * stuck + if k in stuck then {k} else {}
  {
  }
}
