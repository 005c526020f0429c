/**
 The checkpointed sweep over all sources: take up to 1000 unsettled public sources after `next_line`, screen them,
 commit rows and position every sixteenth result and at the end. A crash keeps what was committed, no more.
 */
module ScreeningSweep {
  import opened Wrappers
  import BoxWalk

  const BATCH := 1000
  const CHECKPOINT := 16

  datatype Source = Source(clip: nat, recording: nat, sha: nat, size: nat)

  datatype Status = StructurePresent | StructuralFailure | Hold

  datatype Screened = Screened(sha: nat, status: Status)

  /** One committed state of the database. `nextLine` counts lines from zero. */
  datatype Saved = Saved(screened: map<nat, Screened>, nextLine: nat)

  function StatusOf(v: BoxWalk.Verdict): Status {
    match v
    case Present => StructurePresent
    case Undecided => Hold
    case _ => StructuralFailure
  }

  /** The row says of the structure what the verdict says: there, not there, or not known. */
  predicate Says(status: Status, v: BoxWalk.Verdict) {
    (status.StructurePresent? <==> v.Present?) && (status.Hold? <==> v.Undecided?)
  }

  lemma StatusSays(v: BoxWalk.Verdict)
    ensures Says(StatusOf(v), v)
  {
  }

  /** A result for exactly this content that will not change. */
  predicate Settled(known: map<nat, Screened>, s: Source) {
    s.clip in known && known[s.clip].sha == s.sha && !known[s.clip].status.Hold?
  }

  predicate OneLinePerClip(lines: seq<Source>) {
    forall i, k :: 0 <= i < k < |lines| ==> lines[i].clip != lines[k].clip
  }

  /** The source has a row, and it is for the source's own content if no other line shares its clip. */
  predicate HasRow(lines: seq<Source>, screened: map<nat, Screened>, s: Source) {
    s.clip in screened && (OneLinePerClip(lines) ==> screened[s.clip].sha == s.sha)
  }

  /** No definite result of a public source is lost. */
  ghost predicate KeepsSettled(lines: seq<Source>, public: set<nat>, before: map<nat, Screened>, after: map<nat, Screened>) {
    forall s :: Settled(before, s) && OneLinePerClip(lines) && s in lines && s.recording in public ==> Settled(after, s)
  }

  /** Every public source on a line before `next` has its row. */
  predicate Covered(lines: seq<Source>, public: set<nat>, screened: map<nat, Screened>, next: nat) {
    forall i :: 0 <= i < |lines| && i < next && lines[i].recording in public ==> HasRow(lines, screened, lines[i])
  }

  /** `batch` are sources of `lines` in [start, last), with their line numbers counted from one, and the rest are settled. */
  ghost predicate Collected(lines: seq<Source>, public: set<nat>, known: map<nat, Screened>, start: nat, last: nat,
                            batch: seq<Source>, numbers: seq<nat>) {
    && |batch| == |numbers|
    && (forall k :: 0 <= k < |batch| ==> start < numbers[k] <= last && numbers[k] <= |lines| && lines[numbers[k] - 1] == batch[k])
    && (forall k, l :: 0 <= k < l < |numbers| ==> numbers[k] < numbers[l])
    && (forall k :: 0 <= k < |batch| ==> batch[k].recording in public && !Settled(known, batch[k]))
    && (forall i :: start <= i < last && i < |lines| && lines[i].recording in public ==> Settled(known, lines[i]) || i + 1 in numbers)
  }

  lemma CollectsNext(lines: seq<Source>, public: set<nat>, known: map<nat, Screened>, start: nat, i: nat, batch: seq<Source>,
                     numbers: seq<nat>)
    requires start <= i < |lines| && Collected(lines, public, known, start, i, batch, numbers)
    ensures if lines[i].recording in public && !Settled(known, lines[i])
            then Collected(lines, public, known, start, i + 1, batch + [lines[i]], numbers + [i + 1])
            else Collected(lines, public, known, start, i + 1, batch, numbers)
  {
  }

  class Sweep {
    const lines: seq<Source>
    const public: set<nat>
    var saved: Saved
    var screened: map<nat, Screened>

    constructor (sources: seq<Source>, published: set<nat>, database: Saved)
      ensures lines == sources && public == published && saved == database && screened == database.screened
    {
      lines, public, saved, screened := sources, published, database, database.screened;
    }

    method Collect() returns (batch: seq<Source>, numbers: seq<nat>, last: nat, end: bool)
      ensures saved.nextLine <= last && Collected(lines, public, saved.screened, saved.nextLine, last, batch, numbers)
      ensures |batch| <= BATCH && (end ==> last >= |lines|)
      ensures !end ==> |batch| == BATCH && last <= |lines| && last > saved.nextLine
    {
      hide Collected;
      var known, start := saved.screened, saved.nextLine;
      batch, numbers, last := [], [], start;
      CollectsNothing(lines, public, known, start);
      while last < |lines|
        invariant start <= last && (last <= |lines| || last == start) && |batch| < BATCH
        invariant Collected(lines, public, known, start, last, batch, numbers)
        decreases |lines| - last
      {
        CollectsNext(lines, public, known, start, last, batch, numbers);
        var s := lines[last];
        last := last + 1;
        if s.recording in public
           && !(s.clip in known && known[s.clip] in {Screened(s.sha, StructurePresent), Screened(s.sha, StructuralFailure)}) {
          batch, numbers := batch + [s], numbers + [last];
          if |batch| >= BATCH {
            return batch, numbers, last, false;
          }
        }
      }
      end := true;
    }

    /** Insert or replace a row; at a checkpoint commit it with everything before, and the position. */
    method SaveResult(s: Source, status: Status, number: nat, checkpoint: bool)
      modifies this
      ensures screened == old(screened)[s.clip := Screened(s.sha, status)]
      ensures saved == if checkpoint then Saved(screened, number) else old(saved)
    {
      screened := screened[s.clip := Screened(s.sha, status)];
      if checkpoint {
        saved := Saved(screened, number);
      }
    }

    /**
     One run over the transport `fetch`, the clock `late` and the objects `content`; it dies before result `k` if
     `dies(k)`. Wherever it stops, the committed position is covered, no screened clip is forgotten, and the first `n` of
     the batch have the rows their verdicts ask for: all but the results since the last sixteenth. If it got to the end of
     the file, every public source has a row.
     */
    method Run(fetch: Source -> (nat, nat) -> BoxWalk.Fetch, late: Source -> nat -> bool, ghost content: Source -> BoxWalk.Bytes,
               dies: nat -> bool)
      returns (done: bool, end: bool, ghost batch: seq<Source>, ghost verdicts: seq<BoxWalk.Verdict>, ghost n: nat)
      requires Covered(lines, public, saved.screened, saved.nextLine) && screened == saved.screened
      requires forall s :: |content(s)| == s.size
      requires forall s, k: nat, pos: nat :: fetch(s)(k, pos).Data? ==> |fetch(s)(k, pos).raw| <= 16
      modifies this
      ensures Covered(lines, public, saved.screened, saved.nextLine)
      ensures old(saved).screened.Keys <= saved.screened.Keys
      ensures done && end ==> saved.nextLine == 0 && Covered(lines, public, saved.screened, |lines|)
      ensures done && !end ==> saved.nextLine > old(saved).nextLine
      ensures KeepsSettled(lines, public, old(saved).screened, saved.screened)
      ensures n <= |verdicts| <= |batch| <= BATCH && (done ==> n == |batch|)
      ensures done <==> forall k :: 0 <= k <= |batch| ==> !dies(k)
      ensures !done ==> n % 16 == 0 && |verdicts| < n + 16 && dies(|verdicts|)
      ensures Unsettled(lines, public, old(saved).screened, batch)
      ensures RowsSay(old(saved).screened, saved.screened, batch, verdicts, n)
      ensures forall k :: 0 <= k < |verdicts| ==> Screens(fetch(batch[k]), late(batch[k]), content(batch[k]), verdicts[k])
    {
      hide Collected, Covered, Settled, KeepsSettled, Screens, RowsSay, Unsettled, Running;
      var sources, numbers, last;
      ghost var known, start := saved.screened, saved.nextLine;
      sources, numbers, last, end := Collect();
      batch, verdicts, n := sources, [], 0;
      CollectedShape(lines, public, known, start, last, batch, numbers);
      ghost var statuses: seq<Status> := RunBegins(lines, public, saved, last, batch, numbers);
      done := false;
      var i := 0;
      while i < |sources|
        invariant i <= |batch| && batch == sources && |verdicts| == i && forall k :: 0 <= k < i ==> !dies(k)
        invariant Running(lines, public, known, batch, statuses, verdicts, i, screened, saved, n)
        invariant forall k :: 0 <= k < i ==> Screens(fetch(batch[k]), late(batch[k]), content(batch[k]), verdicts[k])
      {
        if dies(i) {
          RunStops(lines, public, known, batch, statuses, verdicts, i, screened, saved, n);
          return;
        }
        ghost var table, database := screened, saved;
        var verdict := ScreenSource(sources[i], fetch(sources[i]), late(sources[i]), content(sources[i]));
        var status := StatusOf(verdict);
        SaveResult(sources[i], status, numbers[i], (i + 1) % CHECKPOINT == 0);
        statuses, n := RunNext(lines, public, known, start, last, batch, numbers, statuses, verdicts, i, table, database, n, verdict);
        verdicts := verdicts + [verdict];
        i := i + 1;
      }
      RunStops(lines, public, known, batch, statuses, verdicts, i, screened, saved, n);
      if dies(|sources|) {
        return;
      }
      RunEnds(lines, public, known, start, last, batch, numbers, statuses, verdicts, screened, saved, n);
      saved := Saved(screened, if end then 0 else last);
      done, n := true, |sources|;
    }

    /** One source through the walk. */
    method ScreenSource(s: Source, fetch: (nat, nat) -> BoxWalk.Fetch, late: nat -> bool, ghost content: BoxWalk.Bytes)
      returns (verdict: BoxWalk.Verdict)
      requires |content| == s.size && forall k: nat, pos: nat :: fetch(k, pos).Data? ==> |fetch(k, pos).raw| <= 16
      ensures Screens(fetch, late, content, verdict)
    {
      var count, positions;
      verdict, count, positions := BoxWalk.Screen(s.size, fetch, late, content);
    }
  }

  /** After `i` results the table is `screened` and `saved` the last commit, which holds the first `n` of them. */
  ghost predicate Running(lines: seq<Source>, public: set<nat>, known: map<nat, Screened>, batch: seq<Source>, statuses: seq<Status>,
                          verdicts: seq<BoxWalk.Verdict>, i: nat, screened: map<nat, Screened>, saved: Saved, n: nat) {
    |statuses| == |verdicts| == i && (forall k :: 0 <= k < i ==> Says(statuses[k], verdicts[k]))
    && Screening(lines, known, screened, batch, statuses, i)
    && n % 16 == 0 && n <= i < n + 16 && RowsSay(known, saved.screened, batch, verdicts, n)
    && known.Keys <= saved.screened.Keys && KeepsSettled(lines, public, known, saved.screened)
    && Covered(lines, public, saved.screened, saved.nextLine)
  }

  lemma RunBegins(lines: seq<Source>, public: set<nat>, saved: Saved, last: nat, batch: seq<Source>, numbers: seq<nat>)
    returns (none: seq<Status>)
    requires Collected(lines, public, saved.screened, saved.nextLine, last, batch, numbers)
    requires Covered(lines, public, saved.screened, saved.nextLine)
    ensures Running(lines, public, saved.screened, batch, none, [], 0, saved.screened, saved, 0)
  {
    none := [];
    NothingScreened(lines, saved.screened, batch);
    RowsSaid(lines, saved.screened, saved.screened, batch, none, [], 0);
    StaySettled(lines, public, saved.screened, saved.screened, saved.nextLine, last, batch, numbers, none, 0);
    hide Screening, RowsSay, KeepsSettled, Covered, Collected;
  }

  /** One more result; every sixteenth commits it with all before it. */
  lemma RunNext(lines: seq<Source>, public: set<nat>, known: map<nat, Screened>, start: nat, last: nat, batch: seq<Source>,
                numbers: seq<nat>, statuses: seq<Status>, verdicts: seq<BoxWalk.Verdict>, i: nat, screened: map<nat, Screened>,
                saved: Saved, n: nat, verdict: BoxWalk.Verdict) returns (more: seq<Status>, n': nat)
    requires i < |batch| == |numbers| && Collected(lines, public, known, start, last, batch, numbers)
    requires Covered(lines, public, known, start) && Running(lines, public, known, batch, statuses, verdicts, i, screened, saved, n)
    ensures var table := screened[batch[i].clip := Screened(batch[i].sha, StatusOf(verdict))];
            Running(lines, public, known, batch, more, verdicts + [verdict], i + 1, table,
                    if (i + 1) % CHECKPOINT == 0 then Saved(table, numbers[i]) else saved, n')
  {
    hide Collected, Covered, Screening, KeepsSettled, RowsSay, Says;
    var status := StatusOf(verdict);
    var table := screened[batch[i].clip := Screened(batch[i].sha, status)];
    more, n' := statuses + [status], n;
    StatusSays(verdict);
    ScreensNext(lines, known, screened, batch, statuses, i, status);
    if (i + 1) % CHECKPOINT == 0 {
      n' := i + 1;
      CoveredThrough(lines, public, known, table, start, last, batch, numbers, more, i + 1);
      StaySettled(lines, public, known, table, start, last, batch, numbers, more, i + 1);
      RowsSaid(lines, known, table, batch, more, verdicts + [verdict], i + 1);
    } else {
      RowsSayStill(known, saved.screened, batch, verdicts, verdicts + [verdict], n);
    }
  }

  lemma RunStops(lines: seq<Source>, public: set<nat>, known: map<nat, Screened>, batch: seq<Source>, statuses: seq<Status>,
                 verdicts: seq<BoxWalk.Verdict>, i: nat, screened: map<nat, Screened>, saved: Saved, n: nat)
    requires Running(lines, public, known, batch, statuses, verdicts, i, screened, saved, n)
    ensures |verdicts| == i && n % 16 == 0 && n <= i < n + 16 && RowsSay(known, saved.screened, batch, verdicts, n)
    ensures known.Keys <= saved.screened.Keys && KeepsSettled(lines, public, known, saved.screened)
    ensures Covered(lines, public, saved.screened, saved.nextLine)
  {
  }

  /** The last commit holds the whole batch. */
  lemma RunEnds(lines: seq<Source>, public: set<nat>, known: map<nat, Screened>, start: nat, last: nat, batch: seq<Source>,
                numbers: seq<nat>, statuses: seq<Status>, verdicts: seq<BoxWalk.Verdict>, screened: map<nat, Screened>, saved: Saved,
                n: nat)
    requires |batch| == |numbers| && Collected(lines, public, known, start, last, batch, numbers) && Covered(lines, public, known, start)
    requires Running(lines, public, known, batch, statuses, verdicts, |batch|, screened, saved, n)
    ensures RowsSay(known, screened, batch, verdicts, |batch|) && known.Keys <= screened.Keys
    ensures KeepsSettled(lines, public, known, screened)
    ensures Covered(lines, public, screened, 0) && Covered(lines, public, screened, last)
    ensures last >= |lines| ==> Covered(lines, public, screened, |lines|)
  {
    hide Collected, Screening, KeepsSettled, RowsSay, Covered;
    RowsSaid(lines, known, screened, batch, statuses, verdicts, |batch|);
    CoveredWhole(lines, public, known, screened, start, last, batch, numbers, statuses);
    StaySettled(lines, public, known, screened, start, last, batch, numbers, statuses, |batch|);
    CoveredNothing(lines, public, screened);
    CoveredLess(lines, public, screened, last);
  }

  /**
   A definite verdict is a full parser's verdict on the object, and one is reached if nothing disturbs the walk and fewer
   than 32 boxes come first.
   */
  ghost predicate Screens(fetch: (nat, nat) -> BoxWalk.Fetch, late: nat -> bool, content: BoxWalk.Bytes, v: BoxWalk.Verdict) {
    BoxWalk.Unchanging(fetch, content) ==>
      (!v.Undecided? ==> v == BoxWalk.Parse(content, 0).0)
      && (BoxWalk.Undisturbed(fetch, late) && BoxWalk.Parse(content, 0).1 < BoxWalk.MOST_READS ==> !v.Undecided?)
  }

  /** Public sources of the file whose present content has no lasting result. */
  ghost predicate Unsettled(lines: seq<Source>, public: set<nat>, known: map<nat, Screened>, batch: seq<Source>) {
    forall k :: 0 <= k < |batch| ==> batch[k] in lines && batch[k].recording in public && !Settled(known, batch[k])
  }

  /** The rows of the first `n` of the batch, the last one of each clip, are what the verdicts ask for; others are kept. */
  ghost predicate RowsSay(known: map<nat, Screened>, screened: map<nat, Screened>, batch: seq<Source>, verdicts: seq<BoxWalk.Verdict>,
                          n: nat) {
    n <= |verdicts| && n <= |batch|
    && (forall k :: 0 <= k < n && (forall l :: k < l < n ==> batch[l].clip != batch[k].clip) ==>
          batch[k].clip in screened && screened[batch[k].clip].sha == batch[k].sha && Says(screened[batch[k].clip].status, verdicts[k]))
    && (forall c :: c in known && (forall k :: 0 <= k < n ==> batch[k].clip != c) ==> c in screened && screened[c] == known[c])
  }

  lemma RowsSaid(lines: seq<Source>, known: map<nat, Screened>, screened: map<nat, Screened>, batch: seq<Source>, statuses: seq<Status>,
                 verdicts: seq<BoxWalk.Verdict>, n: nat)
    requires |statuses| == |verdicts| == n && Screening(lines, known, screened, batch, statuses, n)
    requires forall k :: 0 <= k < n ==> Says(statuses[k], verdicts[k])
    ensures RowsSay(known, screened, batch, verdicts, n)
  {
  }

  lemma RowsSayStill(known: map<nat, Screened>, screened: map<nat, Screened>, batch: seq<Source>, fewer: seq<BoxWalk.Verdict>,
                     verdicts: seq<BoxWalk.Verdict>, n: nat)
    requires RowsSay(known, screened, batch, fewer, n) && fewer <= verdicts
    ensures RowsSay(known, screened, batch, verdicts, n)
  {
    hide Says;
    forall k | 0 <= k < n ensures verdicts[k] == fewer[k] { }
  }

  /** The first `i` of the batch are in the table over what was known, the last one of each clip. */
  ghost predicate Screening(lines: seq<Source>, known: map<nat, Screened>, screened: map<nat, Screened>, batch: seq<Source>,
                            statuses: seq<Status>, i: nat) {
    i <= |batch| && i <= |statuses|
    && known.Keys <= screened.Keys
    && (forall c :: c in known && (forall k :: 0 <= k < i ==> batch[k].clip != c) ==> screened[c] == known[c])
    && (forall k :: 0 <= k < i ==> batch[k].clip in screened)
    && (forall k :: 0 <= k < i && (forall l :: k < l < i ==> batch[l].clip != batch[k].clip) ==>
          screened[batch[k].clip] == Screened(batch[k].sha, statuses[k]))
  }

  lemma CollectsNothing(lines: seq<Source>, public: set<nat>, known: map<nat, Screened>, start: nat)
    ensures Collected(lines, public, known, start, start, [], [])
  {
  }

  lemma CollectedShape(lines: seq<Source>, public: set<nat>, known: map<nat, Screened>, start: nat, last: nat, batch: seq<Source>,
                       numbers: seq<nat>)
    requires Collected(lines, public, known, start, last, batch, numbers)
    ensures |batch| == |numbers| && Unsettled(lines, public, known, batch)
  {
  }

  lemma NothingScreened(lines: seq<Source>, known: map<nat, Screened>, batch: seq<Source>)
    ensures Screening(lines, known, known, batch, [], 0)
  {
  }

  lemma ScreensNext(lines: seq<Source>, known: map<nat, Screened>, before: map<nat, Screened>, batch: seq<Source>,
                    statuses: seq<Status>, i: nat, status: Status)
    requires i < |batch| && |statuses| == i && Screening(lines, known, before, batch, statuses, i)
    ensures Screening(lines, known, before[batch[i].clip := Screened(batch[i].sha, status)], batch, statuses + [status], i + 1)
  {
    var after := before[batch[i].clip := Screened(batch[i].sha, status)];
    forall c | c in known && (forall k :: 0 <= k < i + 1 ==> batch[k].clip != c) ensures after[c] == known[c] {
      assert batch[i].clip != c;
    }
    forall k | 0 <= k < i + 1 && (forall l :: k < l < i + 1 ==> batch[l].clip != batch[k].clip)
      ensures after[batch[k].clip] == Screened(batch[k].sha, (statuses + [status])[k])
    {
      if k < i { assert batch[i].clip != batch[k].clip; }
    }
  }

  /** With one line per clip the batch has one row per clip, none of them settled. */
  lemma BatchApart(lines: seq<Source>, public: set<nat>, known: map<nat, Screened>, start: nat, last: nat, batch: seq<Source>,
                   numbers: seq<nat>)
    requires Collected(lines, public, known, start, last, batch, numbers) && OneLinePerClip(lines)
    ensures forall k, l :: 0 <= k < l < |batch| ==> batch[k].clip != batch[l].clip
    ensures forall i, k :: 0 <= i < |lines| && 0 <= k < |batch| && lines[i].clip == batch[k].clip ==> lines[i] == batch[k]
  {
    forall k, l | 0 <= k < l < |batch| ensures batch[k].clip != batch[l].clip {
      assert lines[numbers[k] - 1] == batch[k] && lines[numbers[l] - 1] == batch[l];
    }
    forall i, k | 0 <= i < |lines| && 0 <= k < |batch| && lines[i].clip == batch[k].clip ensures lines[i] == batch[k] {
      assert lines[numbers[k] - 1] == batch[k];
      assert !(i < numbers[k] - 1) && !(numbers[k] - 1 < i);
    }
  }

  lemma RowOf(lines: seq<Source>, public: set<nat>, known: map<nat, Screened>, screened: map<nat, Screened>, start: nat, last: nat,
              batch: seq<Source>, numbers: seq<nat>, statuses: seq<Status>, i: nat, n: nat)
    requires Collected(lines, public, known, start, last, batch, numbers) && Screening(lines, known, screened, batch, statuses, n)
    requires i < |lines| && (Settled(known, lines[i]) || (i < start && HasRow(lines, known, lines[i])) || i + 1 in numbers[..n])
    requires |numbers| == |batch|
    ensures HasRow(lines, screened, lines[i])
  {
    hide Collected;
    if OneLinePerClip(lines) {
      BatchApart(lines, public, known, start, last, batch, numbers);
    }
    if i + 1 in numbers[..n] {
      var k :| 0 <= k < n && numbers[k] == i + 1;
      CollectedAt(lines, public, known, start, last, batch, numbers, k);
      assert lines[i] == batch[k];
    } else if OneLinePerClip(lines) {
      forall k | 0 <= k < n && batch[k].clip == lines[i].clip ensures screened[lines[i].clip].sha == lines[i].sha {
        assert lines[i] == batch[k];
      }
    }
  }

  lemma CollectedAt(lines: seq<Source>, public: set<nat>, known: map<nat, Screened>, start: nat, last: nat, batch: seq<Source>,
                    numbers: seq<nat>, k: nat)
    requires Collected(lines, public, known, start, last, batch, numbers) && k < |batch|
    ensures |numbers| == |batch| && start < numbers[k] <= last && numbers[k] <= |lines| && lines[numbers[k] - 1] == batch[k]
  {
  }

  /** After `n` results the file is covered up to the line of the last of them. */
  lemma CoveredThrough(lines: seq<Source>, public: set<nat>, known: map<nat, Screened>, screened: map<nat, Screened>, start: nat,
                       last: nat, batch: seq<Source>, numbers: seq<nat>, statuses: seq<Status>, n: nat)
    requires 0 < n <= |batch| && Collected(lines, public, known, start, last, batch, numbers) && |numbers| == |batch|
    requires Screening(lines, known, screened, batch, statuses, n) && Covered(lines, public, known, start)
    ensures Covered(lines, public, screened, numbers[n - 1]) && known.Keys <= screened.Keys
  {
    forall i | 0 <= i < |lines| && i < numbers[n - 1] && lines[i].recording in public ensures HasRow(lines, screened, lines[i]) {
      if i >= start && !Settled(known, lines[i]) {
        var k :| 0 <= k < |numbers| && numbers[k] == i + 1;
        assert k < n;
        assert numbers[..n][k] == i + 1;
      }
      RowOf(lines, public, known, screened, start, last, batch, numbers, statuses, i, n);
    }
  }

  lemma CoveredWhole(lines: seq<Source>, public: set<nat>, known: map<nat, Screened>, screened: map<nat, Screened>, start: nat,
                     last: nat, batch: seq<Source>, numbers: seq<nat>, statuses: seq<Status>)
    requires Collected(lines, public, known, start, last, batch, numbers) && |numbers| == |batch|
    requires Screening(lines, known, screened, batch, statuses, |batch|) && Covered(lines, public, known, start)
    ensures Covered(lines, public, screened, last) && known.Keys <= screened.Keys
  {
    assert numbers[..|batch|] == numbers;
    forall i | 0 <= i < |lines| && i < last && lines[i].recording in public ensures HasRow(lines, screened, lines[i]) {
      RowOf(lines, public, known, screened, start, last, batch, numbers, statuses, i, |batch|);
    }
  }

  lemma CoveredNothing(lines: seq<Source>, public: set<nat>, screened: map<nat, Screened>)
    ensures Covered(lines, public, screened, 0)
  {
  }

  lemma CoveredLess(lines: seq<Source>, public: set<nat>, screened: map<nat, Screened>, last: nat)
    ensures Covered(lines, public, screened, last) && last >= |lines| ==> Covered(lines, public, screened, |lines|)
  {
  }

  /** A settled source is not screened again, so it stays settled. */
  lemma StaySettled(lines: seq<Source>, public: set<nat>, known: map<nat, Screened>, screened: map<nat, Screened>, start: nat, last: nat,
                    batch: seq<Source>, numbers: seq<nat>, statuses: seq<Status>, n: nat)
    requires Collected(lines, public, known, start, last, batch, numbers) && Screening(lines, known, screened, batch, statuses, n)
    ensures KeepsSettled(lines, public, known, screened)
  {
    if OneLinePerClip(lines) {
      BatchApart(lines, public, known, start, last, batch, numbers);
      forall s | Settled(known, s) && s in lines && s.recording in public ensures Settled(screened, s) {
        var i :| 0 <= i < |lines| && lines[i] == s;
        forall k | 0 <= k < |batch| ensures batch[k].clip != lines[i].clip {
        }
      }
    }
  }
}
