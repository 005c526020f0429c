/**
 Rows, source objects and rules of the verified NAS purge, and what purging a clip means.
 A database row carries its current facts; a scanned candidate carries the facts as they were read.
 */
module PurgeState {
  import opened Wrappers

  type ObjectName = nat

  /** The named booleans every rule of the purge is evaluated to. */
  datatype Facts = Facts(identityOk: bool, managedOk: bool, nasOk: bool, aged: bool, scheduleOk: bool, noSnapshot: bool,
                         noScope: bool, noJoinedWindow: bool, noQualificationWindow: bool, noRestore: bool,
                         playableSignature: bool, rawDelivery: bool, notCandidateRecording: bool, noCohortWindow: bool)
  {
    /** The locked re-check: all fourteen. */
    predicate All() {
      identityOk && managedOk && nasOk && aged && scheduleOk && noSnapshot && noScope && noJoinedWindow
      && noQualificationWindow && noRestore && playableSignature && rawDelivery && notCandidateRecording && noCohortWindow
    }
  }

  datatype Reason =
    | IdentityIncomplete | NotManaged | CollatedOnly | JoinedSnapshot | JoinedScope | JoinedWindow | QualificationWindow
    | CohortWindow | CandidateRecording | Unplayable | WithinGrace | RecentActive | RecentRestore | NasUnverified
    | ExcludedRecording | ExcludedClip | SizeMismatch | ShaMismatch

  function SkipReason(f: Facts): Option<Reason> {
    if !f.identityOk then Some(IdentityIncomplete)
    else if !f.managedOk then Some(NotManaged)
    else if !f.rawDelivery then Some(CollatedOnly)
    else if !f.noSnapshot then Some(JoinedSnapshot)
    else if !f.noScope then Some(JoinedScope)
    else if !f.noJoinedWindow then Some(JoinedWindow)
    else if !f.noQualificationWindow then Some(QualificationWindow)
    else if !f.noCohortWindow then Some(CohortWindow)
    else if !f.notCandidateRecording then Some(CandidateRecording)
    else if !f.playableSignature then Some(Unplayable)
    else if !f.aged then Some(WithinGrace)
    else if !f.scheduleOk then Some(RecentActive)
    else if !f.noRestore then Some(RecentRestore)
    else if !f.nasOk then Some(NasUnverified)
    else None
  }

  /** The scan's classification and the locked re-check are the same rule: one skips exactly what the other refuses. */
  lemma ScanAgreesWithLock(f: Facts)
    ensures SkipReason(f).None? <==> f.All()
  {
  }

  datatype Clip = Clip(id: nat, recording: nat, size: nat, sha: nat, key: ObjectName)

  datatype Candidate = Candidate(clip: Clip, facts: Facts)

  /** `refused`: the retention trigger vetoes it. `inScope`: within the delivery, recording and time filters of the scan. */
  datatype ClipRow = ClipRow(clip: Clip, facts: Facts, refused: bool, inScope: bool, purged: bool)

  datatype Blob = Blob(size: nat, sha: nat)

  type Rows = map<nat, ClipRow>
  type Objects = map<ObjectName, Blob>

  predicate Keyed(rows: Rows) {
    forall id :: id in rows ==> rows[id].clip.id == id
  }

  /** Crash consistency: a committed purge has no object left behind. */
  predicate Gone(rows: Rows, objects: Objects) {
    forall id :: id in rows && rows[id].purged ==> rows[id].clip.key !in objects
  }

  predicate Distinct(batch: seq<Clip>) {
    forall i, k :: 0 <= i < k < |batch| ==> batch[i].id != batch[k].id
  }

  /** What becomes of one clip handed to a purge transaction. */
  datatype Fate = Changed | TriggerRefused | DeleteFailed | Purged

  predicate Lockable(c: Clip, rows: Rows) {
    c.id in rows && rows[c.id].clip == c && !rows[c.id].purged && rows[c.id].facts.All()
  }

  /** `stuck` are the keys whose delete is reported as failed. */
  function FateOf(c: Clip, rows: Rows, stuck: set<ObjectName>): Fate {
    if !Lockable(c, rows) then Changed
    else if rows[c.id].refused then TriggerRefused
    else if c.key in stuck then DeleteFailed
    else Purged
  }

  /** The effect of purging one clip by itself. */
  function PurgeOneRows(c: Clip, rows: Rows, stuck: set<ObjectName>): Rows {
    if FateOf(c, rows, stuck).Purged? then rows[c.id := rows[c.id].(purged := true)] else rows
  }

  function PurgeOneObjects(c: Clip, rows: Rows, objects: Objects, stuck: set<ObjectName>): Objects {
    if FateOf(c, rows, stuck).Purged? then objects - {c.key} else objects
  }

  datatype Outcome = Outcome(rows: Rows, objects: Objects, fates: seq<Fate>)

  /** Purging the clips one by one, each in a transaction of its own. */
  function PurgeEach(batch: seq<Clip>, rows: Rows, objects: Objects, stuck: set<ObjectName>): (o: Outcome)
    ensures |o.fates| == |batch|
  {
    if batch == [] then Outcome(rows, objects, [])
    else
      var n := |batch| - 1;
      var o, c := PurgeEach(batch[..n], rows, objects, stuck), batch[n];
      Outcome(PurgeOneRows(c, o.rows, stuck), PurgeOneObjects(c, o.rows, o.objects, stuck),
              o.fates + [FateOf(c, o.rows, stuck)])
  }

  // ----- the same effect, all at once -----

  function PurgedClips(batch: seq<Clip>, rows: Rows, stuck: set<ObjectName>): set<Clip> {
    set c | c in batch && FateOf(c, rows, stuck).Purged?
  }

  function Marked(rows: Rows, clips: set<Clip>): Rows {
    map id | id in rows :: if rows[id].clip in clips then rows[id].(purged := true) else rows[id]
  }

  function Without(objects: Objects, clips: set<Clip>): Objects {
    objects - set c | c in clips :: c.key
  }

  function FatesOf(batch: seq<Clip>, rows: Rows, stuck: set<ObjectName>): seq<Fate> {
    seq(|batch|, i requires 0 <= i < |batch| => FateOf(batch[i], rows, stuck))
  }

  /** Purging other clips first changes neither what becomes of a clip nor its row. */
  lemma FateStays(c: Clip, gone: set<Clip>, rows: Rows, stuck: set<ObjectName>)
    requires Keyed(rows)
    requires forall d :: d in gone ==> d.id != c.id && FateOf(d, rows, stuck).Purged?
    ensures FateOf(c, Marked(rows, gone), stuck) == FateOf(c, rows, stuck)
    ensures c.id in rows ==> Marked(rows, gone)[c.id] == rows[c.id]
  {
  }

  /** One transaction over distinct clips, none refused or not, does what purging each by itself does. */
  lemma {:induction false} BatchIsEach(batch: seq<Clip>, rows: Rows, objects: Objects, stuck: set<ObjectName>)
    requires Keyed(rows) && Distinct(batch)
    ensures var gone := PurgedClips(batch, rows, stuck);
            PurgeEach(batch, rows, objects, stuck)
            == Outcome(Marked(rows, gone), Without(objects, gone), FatesOf(batch, rows, stuck))
  {
    var gone := PurgedClips(batch, rows, stuck);
    if batch == [] {
      assert Marked(rows, gone) == rows && Without(objects, gone) == objects;
    } else {
      var n := |batch| - 1;
      var front, c := batch[..n], batch[n];
      var before := PurgedClips(front, rows, stuck);
      BatchIsEach(front, rows, objects, stuck);
      FateStays(c, before, rows, stuck);
      assert batch == front + [c];
      assert gone == if FateOf(c, rows, stuck).Purged? then before + {c} else before;
      MarkOne(rows, before, c);
      WithoutOne(objects, before, c);
    }
  }

  lemma MarkOne(rows: Rows, before: set<Clip>, c: Clip)
    requires Keyed(rows)
    ensures c.id in rows && rows[c.id].clip == c ==>
              Marked(rows, before + {c}) == Marked(rows, before)[c.id := Marked(rows, before)[c.id].(purged := true)]
  {
  }

  lemma WithoutOne(objects: Objects, before: set<Clip>, c: Clip)
    ensures Without(objects, before + {c}) == Without(objects, before) - {c.key}
  {
    assert (set d | d in before + {c} :: d.key) == (set d | d in before :: d.key) + {c.key};
  }

  /** Two batches in a row are one. */
  lemma {:induction false} EachThen(a: seq<Clip>, b: seq<Clip>, rows: Rows, objects: Objects, stuck: set<ObjectName>)
    ensures var o := PurgeEach(a, rows, objects, stuck); var p := PurgeEach(b, o.rows, o.objects, stuck);
            PurgeEach(a + b, rows, objects, stuck) == Outcome(p.rows, p.objects, o.fates + p.fates)
    decreases |b|
  {
    hide PurgeOneRows, PurgeOneObjects, FateOf;
    if b == [] {
      assert a + b == a;
    } else {
      var n := |b| - 1;
      EachThen(a, b[..n], rows, objects, stuck);
      assert (a + b)[..|a| + n] == a + b[..n] && (a + b)[|a| + n] == b[n];
    }
  }

  // ----- any prefix of the work, whatever broke it off -----

  /**
   From one durable state to a later one: some rows marked, some objects deleted, all of them of clips that
   passed every rule under lock, and no row marked whose object is still there. `stuck` are the keys the store
   always refuses; any other delete may fail too, with its object gone or not, and then its row is not marked.
   */
  ghost predicate PartlyPurged(clips: set<Clip>, rows: Rows, objects: Objects, rows': Rows, objects': Objects, stuck: set<ObjectName>) {
    && rows'.Keys == rows.Keys
    && (forall id :: id in rows ==>
          rows'[id] == rows[id]
          || (rows'[id] == rows[id].(purged := true) && rows[id].clip in clips && FateOf(rows[id].clip, rows, stuck).Purged?
              && rows[id].clip.key !in objects'))
    && (forall k :: k in objects' ==> k in objects && objects'[k] == objects[k])
    && (forall k :: k in objects && k !in objects' ==>
          exists c :: c in clips && c.key == k && FateOf(c, rows, stuck).Purged?)
  }

  lemma PartlyNothing(clips: set<Clip>, rows: Rows, objects: Objects, stuck: set<ObjectName>)
    ensures PartlyPurged(clips, rows, objects, rows, objects, stuck)
  {
  }

  lemma PartlyMore(a: set<Clip>, b: set<Clip>, rows: Rows, objects: Objects, rows': Rows, objects': Objects, stuck: set<ObjectName>)
    requires PartlyPurged(a, rows, objects, rows', objects', stuck) && a <= b
    ensures PartlyPurged(b, rows, objects, rows', objects', stuck)
  {
    forall k | k in objects && k !in objects'
      ensures exists c :: c in b && c.key == k && FateOf(c, rows, stuck).Purged?
    {
      var c :| c in a && c.key == k && FateOf(c, rows, stuck).Purged?;
      assert c in b;
    }
  }

  /** What can still be purged could be purged from the start. */
  lemma FateBefore(c: Clip, clips: set<Clip>, rows: Rows, objects: Objects, rows': Rows, objects': Objects, stuck: set<ObjectName>)
    requires Keyed(rows) && PartlyPurged(clips, rows, objects, rows', objects', stuck)
    requires FateOf(c, rows', stuck).Purged?
    ensures FateOf(c, rows, stuck).Purged? && rows'[c.id] == rows[c.id]
  {
    assert rows'[c.id] == rows[c.id];
  }

  lemma PartlyThen(clips: set<Clip>, rows: Rows, objects: Objects, rows': Rows, objects': Objects, rows'': Rows, objects'': Objects,
                   stuck: set<ObjectName>)
    requires Keyed(rows)
    requires PartlyPurged(clips, rows, objects, rows', objects', stuck) && PartlyPurged(clips, rows', objects', rows'', objects'', stuck)
    ensures PartlyPurged(clips, rows, objects, rows'', objects'', stuck) && Keyed(rows'')
  {
    forall id | id in rows && rows''[id] != rows'[id]
      ensures rows'[id] == rows[id] && rows[id].clip in clips && FateOf(rows[id].clip, rows, stuck).Purged?
    {
      FateBefore(rows'[id].clip, clips, rows, objects, rows', objects', stuck);
    }
    forall k | k in objects && k !in objects''
      ensures exists c :: c in clips && c.key == k && FateOf(c, rows, stuck).Purged?
    {
      if k in objects' {
        var c :| c in clips && c.key == k && FateOf(c, rows', stuck).Purged?;
        FateBefore(c, clips, rows, objects, rows', objects', stuck);
      }
    }
  }

  /** At every crash point a committed `purged_at` still means the object is gone. */
  lemma GoneStays(clips: set<Clip>, rows: Rows, objects: Objects, rows': Rows, objects': Objects, stuck: set<ObjectName>)
    requires Gone(rows, objects) && PartlyPurged(clips, rows, objects, rows', objects', stuck)
    ensures Gone(rows', objects')
  {
  }

  /** With one row per key, a row that does not pass every rule keeps its object. */
  lemma OthersKeepObjects(id: nat, clips: set<Clip>, rows: Rows, objects: Objects, rows': Rows, objects': Objects, stuck: set<ObjectName>)
    requires Keyed(rows) && PartlyPurged(clips, rows, objects, rows', objects', stuck)
    requires forall a, b :: a in rows && b in rows && rows[a].clip.key == rows[b].clip.key ==> a == b
    requires id in rows
    requires var f := rows[id].facts;
             rows[id].clip !in clips || rows[id].purged || rows[id].refused
             || !f.identityOk || !f.managedOk || !f.nasOk || !f.aged || !f.scheduleOk || !f.noSnapshot || !f.noScope || !f.noJoinedWindow
             || !f.noQualificationWindow || !f.noRestore || !f.playableSignature || !f.rawDelivery || !f.notCandidateRecording
             || !f.noCohortWindow
    ensures rows'[id] == rows[id]
    ensures rows[id].clip.key in objects ==> rows[id].clip.key in objects' && objects'[rows[id].clip.key] == objects[rows[id].clip.key]
  {
    var k := rows[id].clip.key;
    forall c | c in clips && FateOf(c, rows, stuck).Purged? ensures c.key != k {
      assert c.id in rows && rows[c.id].clip == c;
    }
  }

  // ----- where an undisturbed run ends -----

  function Purgeable(clips: set<Clip>, rows: Rows, stuck: set<ObjectName>): set<Clip> {
    set c | c in clips && FateOf(c, rows, stuck).Purged?
  }

  function TargetRows(clips: set<Clip>, rows: Rows, stuck: set<ObjectName>): Rows {
    Marked(rows, Purgeable(clips, rows, stuck))
  }

  function TargetObjects(clips: set<Clip>, rows: Rows, objects: Objects, stuck: set<ObjectName>): Objects {
    Without(objects, Purgeable(clips, rows, stuck))
  }

  /** An interruption between any two durable writes leaves an undisturbed run where it would have ended anyway. */
  lemma TargetStays(clips: set<Clip>, rows: Rows, objects: Objects, rows': Rows, objects': Objects, stuck: set<ObjectName>)
    requires Keyed(rows) && PartlyPurged(clips, rows, objects, rows', objects', stuck)
    ensures TargetRows(clips, rows', stuck) == TargetRows(clips, rows, stuck)
    ensures TargetObjects(clips, rows', objects', stuck) == TargetObjects(clips, rows, objects, stuck)
  {
    var first, second := Purgeable(clips, rows, stuck), Purgeable(clips, rows', stuck);
    forall c | c in second ensures c in first {
      FateBefore(c, clips, rows, objects, rows', objects', stuck);
    }
    forall c | c in first ensures c in second || (rows'[c.id] == rows[c.id].(purged := true) && c.key !in objects') {
    }
    hide FateOf;
    RowsSettle(rows, rows', first, second);
    ObjectsSettle(objects, objects', first, second);
  }

  lemma RowsSettle(rows: Rows, rows': Rows, first: set<Clip>, second: set<Clip>)
    requires rows'.Keys == rows.Keys && second <= first
    requires forall id :: id in rows ==> rows'[id] == rows[id] || (rows'[id] == rows[id].(purged := true) && rows[id].clip in first)
    requires forall c :: c in first && c !in second && c.id in rows ==> rows'[c.id] == rows[c.id].(purged := true)
    requires forall c :: c in first ==> c.id in rows && rows[c.id].clip == c
    requires Keyed(rows)
    ensures Marked(rows', second) == Marked(rows, first)
  {
  }

  lemma ObjectsSettle(objects: Objects, objects': Objects, first: set<Clip>, second: set<Clip>)
    requires second <= first && forall k :: k in objects' ==> k in objects && objects'[k] == objects[k]
    requires forall k :: k in objects && k !in objects' ==> exists c :: c in first && c.key == k
    requires forall c :: c in first && c !in second ==> c.key !in objects'
    ensures Without(objects', second) == Without(objects, first)
  {
    forall k ensures k in Without(objects', second) <==> k in Without(objects, first) { }
  }
}
