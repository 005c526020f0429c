/**
 One pass of the purge over the candidates in id order, page by page: what it covers, where it may be
 resumed, and that a run after any interruption ends where an undisturbed run would have.
 */
module PurgePass {
  import opened Wrappers
  import opened PurgeState
  import opened PurgeRun

  /** How scanning one page ended, and how the whole pass did. */
  datatype PageEnd = NextPage | Limit | Stopped | Aborted | Crashed

  datatype Ending = Finished | LimitEnd | Interrupted | Failed | ProcessDied

  /** The candidate query without its page size. */
  function CandidateIds(rows: Rows, opts: Options, after: nat): set<nat> {
    set id | id in rows && after < id && (opts.until == 0 || id <= opts.until) && !rows[id].purged && rows[id].inScope
  }

  predicate Selected(c: Candidate, opts: Options) {
    SkipReason(c.facts).None? && c.clip.recording !in opts.excludeRecordings && c.clip.id !in opts.excludeClips
  }

  /** The clips a full scan from `after` would hand to the purge. */
  function SelectedClips(rows: Rows, opts: Options, after: nat): set<Clip> {
    set id | id in CandidateIds(rows, opts, after) && Selected(Candidate(rows[id].clip, rows[id].facts), opts) :: rows[id].clip
  }

  function PageIds(page: seq<Candidate>): set<nat> { set c | c in page :: c.clip.id }

  function PageClips(page: seq<Candidate>, opts: Options): set<Clip> {
    set c | c in page && Selected(c, opts) :: c.clip
  }

  function UpTo(ids: set<nat>, last: nat): set<nat> { set id | id in ids && id <= last }

  predicate Ascending(page: seq<Candidate>) {
    forall i, k :: 0 <= i < k < |page| ==> page[i].clip.id < page[k].clip.id
  }

  predicate AsRead(page: seq<Candidate>, rows: Rows) {
    forall i :: 0 <= i < |page| ==> page[i].clip.id in rows && page[i] == Candidate(rows[page[i].clip.id].clip, rows[page[i].clip.id].facts)
  }

  method Smallest(ids: set<nat>) returns (least: nat)
    requires ids != {}
    ensures least in ids && forall id :: id in ids ==> least <= id
  {
    least :| least in ids;
    var rest := ids - {least};
    while rest != {}
      invariant least in ids && rest <= ids && forall id :: id in ids && id !in rest ==> least <= id
      decreases |rest|
    {
      var id :| id in rest;
      if id < least {
        least := id;
      }
      rest := rest - {id};
    }
  }

  /** `ORDER BY c.id LIMIT n`: the first candidates after `after`, all of them if there are fewer. */
  method LoadPage(p: NasPurger, after: nat) returns (page: seq<Candidate>)
    requires Keyed(p.rows) && p.opts.Valid()
    ensures |page| <= p.opts.pageSize && Ascending(page) && AsRead(page, p.rows)
    ensures page == [] <==> CandidateIds(p.rows, p.opts, after) == {}
    ensures page != [] ==> PageIds(page) == UpTo(CandidateIds(p.rows, p.opts, after), page[|page| - 1].clip.id)
  {
    hide Ascending, AsRead, PageIds, UpTo, CandidateIds, PageSoFar;
    var todo := CandidateIds(p.rows, p.opts, after);
    CandidatesAreRows(p.rows, p.opts, after);
    ghost var all := todo;
    page := [];
    PageBegins(p.rows, all);
    while |page| < p.opts.pageSize && todo != {}
      invariant |page| <= p.opts.pageSize && todo <= all && PageSoFar(page, p.rows, all, todo)
      decreases |todo|
    {
      var id := Smallest(todo);
      PageGrows(page, p.rows, all, todo, id);
      page := page + [Candidate(p.rows[id].clip, p.rows[id].facts)];
      todo := todo - {id};
    }
    PageEnds(page, p.rows, all, todo);
  }

  lemma CandidatesAreRows(rows: Rows, opts: Options, after: nat)
    ensures CandidateIds(rows, opts, after) <= rows.Keys
  {
  }

  /** The page holds the smallest of `all`, in order; `todo` is what is left. */
  ghost predicate PageSoFar(page: seq<Candidate>, rows: Rows, all: set<nat>, todo: set<nat>) {
    Ascending(page) && AsRead(page, rows) && PageIds(page) == all - todo
    && forall i, id :: 0 <= i < |page| && id in todo ==> page[i].clip.id < id
  }

  lemma PageBegins(rows: Rows, all: set<nat>)
    ensures PageSoFar([], rows, all, all)
  {
    assert PageIds([]) == {};
  }

  lemma PageGrows(page: seq<Candidate>, rows: Rows, all: set<nat>, todo: set<nat>, id: nat)
    requires Keyed(rows) && todo <= all && PageSoFar(page, rows, all, todo)
    requires id in todo && id in rows && forall other :: other in todo ==> id <= other
    ensures PageSoFar(page + [Candidate(rows[id].clip, rows[id].facts)], rows, all, todo - {id})
  {
    PageIdsMore(page, Candidate(rows[id].clip, rows[id].facts));
  }

  lemma PageEnds(page: seq<Candidate>, rows: Rows, all: set<nat>, todo: set<nat>)
    requires todo <= all && PageSoFar(page, rows, all, todo)
    ensures Ascending(page) && AsRead(page, rows)
    ensures page == [] ==> todo == all
    ensures page != [] ==> all != {} && PageIds(page) == UpTo(all, page[|page| - 1].clip.id)
  {
    if page == [] {
      assert PageIds(page) == {};
      assert todo == all - (all - todo);
    } else {
      assert page[0].clip.id in PageIds(page);
      PageIsPrefix(page, all, todo);
    }
  }

  lemma PageIdsMore(page: seq<Candidate>, c: Candidate)
    ensures PageIds(page + [c]) == PageIds(page) + {c.clip.id}
  {
  }

  lemma PageIsPrefix(page: seq<Candidate>, all: set<nat>, todo: set<nat>)
    requires page != [] && Ascending(page) && todo <= all && PageIds(page) == all - todo
    requires forall i, id :: 0 <= i < |page| && id in todo ==> page[i].clip.id < id
    ensures PageIds(page) == UpTo(all, page[|page| - 1].clip.id)
  {
    var last := page[|page| - 1].clip.id;
    forall id | id in PageIds(page) ensures id <= last {
      var c :| c in page && c.clip.id == id;
      var i :| 0 <= i < |page| && page[i] == c;
    }
  }

  /** Nothing among these clips could be purged any more. */
  ghost predicate NothingLeft(clips: set<Clip>, rows: Rows, stuck: set<ObjectName>) {
    forall c :: c in clips ==> !FateOf(c, rows, stuck).Purged?
  }

  lemma StillNothing(done: set<Clip>, clips: set<Clip>, rows: Rows, objects: Objects, rows': Rows, objects': Objects,
                     stuck: set<ObjectName>)
    requires Keyed(rows) && NothingLeft(done, rows, stuck) && PartlyPurged(clips, rows, objects, rows', objects', stuck)
    ensures NothingLeft(done, rows', stuck)
  {
    forall c | c in done ensures !FateOf(c, rows', stuck).Purged? {
      if FateOf(c, rows', stuck).Purged? {
        FateBefore(c, clips, rows, objects, rows', objects', stuck);
        assert false;
      }
    }
  }

  /** A batch purged clip by clip leaves nothing to purge in it. */
  lemma BatchDone(batch: seq<Clip>, was: Rows, held: Objects, before: seq<Entry>, rows: Rows, objects: Objects, log: seq<Entry>,
                  stuck: set<ObjectName>)
    requires Keyed(was) && Distinct(batch) && Refines(batch, was, held, before, rows, objects, log, stuck)
    ensures NothingLeft(ClipSet(batch), rows, stuck)
  {
    BatchIsEach(batch, was, held, stuck);
    var gone := PurgedClips(batch, was, stuck);
    forall c | c in ClipSet(batch) ensures !FateOf(c, rows, stuck).Purged? {
      if !FateOf(c, was, stuck).Purged? {
        forall d | d in gone ensures d.id != c.id {
          var i :| 0 <= i < |batch| && batch[i] == c;
          var k :| 0 <= k < |batch| && batch[k] == d;
        }
        FateStays(c, gone, was, stuck);
      }
    }
  }

  /** An undisturbed end: with nothing left to purge the state is the target of the state the run began with. */
  lemma NothingLeftIsTarget(clips: set<Clip>, was: Rows, held: Objects, rows: Rows, objects: Objects, stuck: set<ObjectName>)
    requires Keyed(was) && PartlyPurged(clips, was, held, rows, objects, stuck) && NothingLeft(clips, rows, stuck)
    ensures rows == TargetRows(clips, was, stuck) && objects == TargetObjects(clips, was, held, stuck)
  {
    TargetStays(clips, was, held, rows, objects, stuck);
    assert Purgeable(clips, rows, stuck) == {};
    assert Marked(rows, {}) == rows && Without(objects, {}) == objects;
  }

  // ----- one page -----

  /** `--limit` and `--max-bytes`; zero means no bound. */
  predicate Within(opts: Options, eligible: nat, eligibleBytes: nat) {
    (opts.limit > 0 ==> eligible <= opts.limit) && (opts.maxBytes > 0 ==> eligibleBytes <= opts.maxBytes)
  }

  predicate NoRoom(opts: Options, eligible: nat, eligibleBytes: nat, size: nat) {
    (opts.limit > 0 && eligible >= opts.limit) || (opts.maxBytes > 0 && eligibleBytes + size > opts.maxBytes)
  }

  /** Some selected clip of the page does not fit under the limits any more. */
  ghost predicate Overfull(page: seq<Candidate>, opts: Options, eligible: nat, eligibleBytes: nat) {
    exists i :: 0 <= i < |page| && Selected(page[i], opts) && NoRoom(opts, eligible, eligibleBytes, page[i].clip.size)
  }

  lemma OverfullAt(page: seq<Candidate>, i: nat, opts: Options, eligible: nat, eligibleBytes: nat)
    requires i < |page| && Selected(page[i], opts) && NoRoom(opts, eligible, eligibleBytes, page[i].clip.size)
    ensures Overfull(page, opts, eligible, eligibleBytes)
  {
  }

  /** Of the scanned part of a page, every candidate is either pending or has its one disposition. */
  ghost predicate Scanning(page: seq<Candidate>, i: nat, opts: Options, pending: seq<Clip>, done: set<nat>,
                           before: seq<Entry>, log: seq<Entry>) {
    i <= |page| && Ascending(page)
    && Distinct(pending) && ClipSet(pending) <= PageClips(page[..i], opts)
    && done !! Ids(pending) && done + Ids(pending) == PageIds(page[..i]) && Accounts(before, log, done)
  }

  function DoneClips(page: seq<Candidate>, i: nat, opts: Options, done: set<nat>): set<Clip>
    requires i <= |page|
  {
    set c | c in PageClips(page[..i], opts) && c.id in done
  }

  lemma ScanBegins(page: seq<Candidate>, opts: Options, log: seq<Entry>)
    requires Ascending(page)
    ensures Scanning(page, 0, opts, [], {}, log, log) && DoneClips(page, 0, opts, {}) == {}
  {
    AccountsNothing(log);
    assert Ids([]) == {} && PageIds(page[..0]) == {};
  }

  lemma PagePart(page: seq<Candidate>, i: nat, opts: Options)
    requires i < |page| && Ascending(page)
    ensures PageIds(page[..i + 1]) == PageIds(page[..i]) + {page[i].clip.id} && page[i].clip.id !in PageIds(page[..i])
    ensures PageClips(page[..i + 1], opts) == PageClips(page[..i], opts) + (if Selected(page[i], opts) then {page[i].clip} else {})
    ensures forall c :: c in PageClips(page[..i], opts) ==> c.id in PageIds(page[..i])
  {
    assert page[..i + 1] == page[..i] + [page[i]];
  }

  lemma ScanNotes(page: seq<Candidate>, i: nat, opts: Options, pending: seq<Clip>, done: set<nat>, before: seq<Entry>, log: seq<Entry>,
                  note: Note)
    requires i < |page| && Scanning(page, i, opts, pending, done, before, log)
    ensures Scanning(page, i + 1, opts, pending, done + {page[i].clip.id}, before, log + [Entry(page[i].clip.id, note)])
    ensures !Selected(page[i], opts) ==> DoneClips(page, i + 1, opts, done + {page[i].clip.id}) == DoneClips(page, i, opts, done)
  {
    hide Accounts;
    PagePart(page, i, opts);
    AccountsOne(before, log, done, Entry(page[i].clip.id, note));
  }

  lemma ScanQueues(page: seq<Candidate>, i: nat, opts: Options, pending: seq<Clip>, done: set<nat>, before: seq<Entry>, log: seq<Entry>)
    requires i < |page| && Scanning(page, i, opts, pending, done, before, log) && Selected(page[i], opts)
    ensures Scanning(page, i + 1, opts, pending + [page[i].clip], done, before, log)
    ensures DoneClips(page, i + 1, opts, done) == DoneClips(page, i, opts, done)
  {
    hide Accounts;
    PagePart(page, i, opts);
    assert Ids(pending + [page[i].clip]) == Ids(pending) + {page[i].clip.id};
    forall d | d in pending ensures d.id != page[i].clip.id { assert d.id in Ids(pending); }
  }

  lemma ScanFlushes(page: seq<Candidate>, i: nat, opts: Options, pending: seq<Clip>, done: set<nat>, before: seq<Entry>,
                    log: seq<Entry>, log': seq<Entry>)
    requires Scanning(page, i, opts, pending, done, before, log) && Accounts(log, log', Ids(pending))
    ensures Scanning(page, i, opts, [], done + Ids(pending), before, log')
    ensures DoneClips(page, i, opts, done + Ids(pending)) <= DoneClips(page, i, opts, done) + ClipSet(pending)
  {
    hide Accounts;
    AccountsThen(before, log, log', done, Ids(pending));
    forall c | c in PageClips(page[..i], opts) && c.id in Ids(pending) ensures c in ClipSet(pending) {
      var d :| d in pending && d.id == c.id;
      SameIdSameClip(page, i, opts, c, d);
    }
    assert Ids([]) == {};
  }

  lemma SameIdSameClip(page: seq<Candidate>, i: nat, opts: Options, c: Clip, d: Clip)
    requires i <= |page| && Ascending(page) && c in PageClips(page[..i], opts) && d in PageClips(page[..i], opts) && c.id == d.id
    ensures c == d
  {
    var x :| x in page[..i] && Selected(x, opts) && x.clip == c;
    var y :| y in page[..i] && Selected(y, opts) && y.clip == d;
    var a :| 0 <= a < i && page[a] == x;
    var b :| 0 <= b < i && page[b] == y;
    assert !(a < b) && !(b < a);
  }

  lemma ScanGrew(page: seq<Candidate>, i: nat, opts: Options, pending: seq<Clip>, done: set<nat>, before: seq<Entry>, log: seq<Entry>,
                 log': seq<Entry>)
    requires Scanning(page, i, opts, pending, done, before, log) && Grew(log, log', Ids(pending))
    ensures Grew(before, log', PageIds(page))
  {
    AccountsGrew(before, log, done);
    assert PageIds(page[..i]) <= PageIds(page);
    GrewThen(before, log, log', done, Ids(pending), PageIds(page));
  }

  lemma ScanDone(page: seq<Candidate>, opts: Options, done: set<nat>, before: seq<Entry>, log: seq<Entry>)
    requires Scanning(page, |page|, opts, [], done, before, log)
    ensures Accounts(before, log, PageIds(page)) && DoneClips(page, |page|, opts, done) == PageClips(page, opts)
  {
    assert page[..|page|] == page && Ids([]) == {};
    forall c | c in PageClips(page, opts) ensures c.id in done {
      assert c.id in PageIds(page);
    }
  }

  /** Process what is pending, if anything. */
  method Flush(p: NasPurger, pending: seq<Clip>) returns (flow: Flow, ghost clean: bool)
    requires Keyed(p.rows) && Distinct(pending)
    modifies p`rows, p`objects, p`log, p`purged, p`purgedBytes, p`errors, p`cancelled, p`headN, p`chances
    ensures Keyed(p.rows) && PartlyPurged(ClipSet(pending), old(p.rows), old(p.objects), p.rows, p.objects, p.stuck)
    ensures Grew(old(p.log), p.log, Ids(pending)) && p.errors >= old(p.errors) && (old(p.cancelled) ==> p.cancelled)
    ensures flow.Continue? && !p.cancelled ==> Accounts(old(p.log), p.log, Ids(pending))
    ensures !p.opts.apply ==> p.rows == old(p.rows) && p.objects == old(p.objects)
    ensures clean && Sound(pending, old(p.objects)) && p.opts.apply ==> NothingLeft(ClipSet(pending), p.rows, p.stuck)
    ensures flow.Continue? && !clean ==> p.cancelled || p.errors > old(p.errors)
    ensures flow.Abort? ==> p.errors >= p.opts.maxErrors
    ensures p.Calm() ==> p.cancelled == old(p.cancelled) && !flow.Dead? && (flow.Continue? ==> clean)
    ensures p.Calm() && NoneStuck(pending, p.stuck) ==> flow.Continue? && p.errors == old(p.errors)
  {
    if pending == [] {
      PartlyNothing(ClipSet(pending), p.rows, p.objects, p.stuck);
      AccountsNothing(p.log);
      assert Ids(pending) == {};
      return Continue, true;
    }
    ghost var rows, objects, log := p.rows, p.objects, p.log;
    hide PartlyPurged, Grew, Accounts, Refines, NothingLeft;
    flow, clean := p.ProcessBatch(pending);
    if clean && Sound(pending, objects) && p.opts.apply {
      BatchDone(pending, rows, objects, log, p.rows, p.objects, p.log, p.stuck);
    }
  }

  /** The reason a candidate is skipped for, or none. */
  function Classify(c: Candidate, opts: Options): (r: Option<Reason>)
    ensures r.None? <==> Selected(c, opts)
  {
    if SkipReason(c.facts).Some? then SkipReason(c.facts)
    else if c.clip.recording in opts.excludeRecordings then Some(ExcludedRecording)
    else if c.clip.id in opts.excludeClips then Some(ExcludedClip)
    else None
  }

  predicate SoundClips(clips: set<Clip>, objects: Objects) {
    forall c :: c in clips && c.key in objects ==> objects[c.key] == Blob(c.size, c.sha)
  }

  lemma PendingInPage(page: seq<Candidate>, i: nat, opts: Options, pending: seq<Clip>, done: set<nat>, before: seq<Entry>,
                      log: seq<Entry>)
    requires Scanning(page, i, opts, pending, done, before, log)
    ensures Distinct(pending) && ClipSet(pending) <= PageClips(page, opts)
  {
    assert PageClips(page[..i], opts) <= PageClips(page, opts);
  }

  lemma AfterFlush(all: set<Clip>, part: seq<Clip>, done: set<Clip>, rows0: Rows, objects0: Objects, rows: Rows, objects: Objects,
                   rows': Rows, objects': Objects, stuck: set<ObjectName>)
    requires Keyed(rows0) && Keyed(rows) && ClipSet(part) <= all
    requires PartlyPurged(all, rows0, objects0, rows, objects, stuck) && PartlyPurged(ClipSet(part), rows, objects, rows', objects', stuck)
    ensures PartlyPurged(all, rows0, objects0, rows', objects', stuck)
    ensures SoundClips(all, objects0) ==> Sound(part, objects)
    ensures NothingLeft(done, rows, stuck) && NothingLeft(ClipSet(part), rows', stuck)
            ==> NothingLeft(done + ClipSet(part), rows', stuck)
  {
    PartlyMore(ClipSet(part), all, rows, objects, rows', objects', stuck);
    PartlyThen(all, rows0, objects0, rows, objects, rows', objects', stuck);
    if NothingLeft(done, rows, stuck) {
      StillNothing(done, ClipSet(part), rows, objects, rows', objects', stuck);
    }
    forall c | c in part && SoundClips(all, objects0) && c.key in objects ensures objects[c.key] == Blob(c.size, c.sha) {
      assert c in ClipSet(part);
    }
  }

  /** What the scan of a page has done so far; `clean` says no check, delete request or commit broke off. */
  ghost predicate PageState(page: seq<Candidate>, i: nat, opts: Options, pending: seq<Clip>, done: set<nat>, clean: bool,
                            rows0: Rows, objects0: Objects, log0: seq<Entry>, rows: Rows, objects: Objects, log: seq<Entry>,
                            stuck: set<ObjectName>) {
    Keyed(rows0) && Keyed(rows) && Scanning(page, i, opts, pending, done, log0, log)
    && PartlyPurged(PageClips(page, opts), rows0, objects0, rows, objects, stuck)
    && (!opts.apply ==> rows == rows0 && objects == objects0)
    && (clean && opts.apply && SoundClips(PageClips(page, opts), objects0) ==>
              NothingLeft(DoneClips(page, i, opts, done), rows, stuck))
  }

  lemma PageStart(page: seq<Candidate>, opts: Options, rows: Rows, objects: Objects, log: seq<Entry>, stuck: set<ObjectName>)
    requires Keyed(rows) && Ascending(page)
    ensures PageState(page, 0, opts, [], {}, true, rows, objects, log, rows, objects, log, stuck)
  {
    ScanBegins(page, opts, log);
    PartlyNothing(PageClips(page, opts), rows, objects, stuck);
  }

  lemma PageNotes(page: seq<Candidate>, i: nat, opts: Options, pending: seq<Clip>, done: set<nat>, clean: bool, rows0: Rows,
                  objects0: Objects, log0: seq<Entry>, rows: Rows, objects: Objects, log: seq<Entry>, stuck: set<ObjectName>, note: Note)
    requires i < |page| && PageState(page, i, opts, pending, done, clean, rows0, objects0, log0, rows, objects, log, stuck)
    requires !Selected(page[i], opts) || !opts.apply
    ensures PageState(page, i + 1, opts, pending, done + {page[i].clip.id}, clean, rows0, objects0, log0, rows, objects,
                      log + [Entry(page[i].clip.id, note)], stuck)
  {
    hide Scanning, PartlyPurged, NothingLeft, DoneClips;
    ScanNotes(page, i, opts, pending, done, log0, log, note);
    SameLimits(page, i, opts, pending, done, log0, log);
  }

  lemma SameLimits(page: seq<Candidate>, i: nat, opts: Options, pending: seq<Clip>, done: set<nat>, before: seq<Entry>, log: seq<Entry>)
    requires Scanning(page, i, opts, pending, done, before, log)
    ensures i <= |page|
  {
  }

  lemma PageQueues(page: seq<Candidate>, i: nat, opts: Options, pending: seq<Clip>, done: set<nat>, clean: bool, rows0: Rows,
                   objects0: Objects, log0: seq<Entry>, rows: Rows, objects: Objects, log: seq<Entry>, stuck: set<ObjectName>)
    requires i < |page| && PageState(page, i, opts, pending, done, clean, rows0, objects0, log0, rows, objects, log, stuck)
    requires Selected(page[i], opts)
    ensures PageState(page, i + 1, opts, pending + [page[i].clip], done, clean, rows0, objects0, log0, rows, objects, log, stuck)
  {
    hide Scanning, PartlyPurged, NothingLeft, DoneClips;
    ScanQueues(page, i, opts, pending, done, log0, log);
  }

  /** However a flush ends the page's account is kept; if it went on undisturbed nothing is pending any more. */
  lemma PageFlushes(page: seq<Candidate>, i: nat, opts: Options, pending: seq<Clip>, done: set<nat>, clean: bool, ok: bool, rows0: Rows,
                    objects0: Objects, log0: seq<Entry>, rows: Rows, objects: Objects, log: seq<Entry>, rows': Rows, objects': Objects,
                    log': seq<Entry>, stuck: set<ObjectName>)
    requires PageState(page, i, opts, pending, done, clean, rows0, objects0, log0, rows, objects, log, stuck) && Keyed(rows')
    requires PartlyPurged(ClipSet(pending), rows, objects, rows', objects', stuck) && Grew(log, log', Ids(pending))
    requires !opts.apply ==> rows' == rows && objects' == objects
    requires ok && Sound(pending, objects) && opts.apply ==> NothingLeft(ClipSet(pending), rows', stuck)
    ensures PartlyPurged(PageClips(page, opts), rows0, objects0, rows', objects', stuck) && Grew(log0, log', PageIds(page))
    ensures Accounts(log, log', Ids(pending)) ==>
              PageState(page, i, opts, [], done + Ids(pending), clean && ok, rows0, objects0, log0, rows', objects', log', stuck)
  {
    PendingInPage(page, i, opts, pending, done, log0, log);
    AfterFlush(PageClips(page, opts), pending, DoneClips(page, i, opts, done), rows0, objects0, rows, objects, rows', objects', stuck);
    ScanGrew(page, i, opts, pending, done, log0, log, log');
    if Accounts(log, log', Ids(pending)) {
      ScanFlushes(page, i, opts, pending, done, log0, log, log');
    }
    hide Scanning, PartlyPurged, FateOf, DoneClips, SoundClips, Sound, Accounts, Grew;
  }

  method ScanPage(p: NasPurger, page: seq<Candidate>) returns (end: PageEnd, ghost clean: bool, ghost n: nat)
    requires Keyed(p.rows) && Ascending(page) && p.opts.Valid() && !p.cancelled && Within(p.opts, p.eligible, p.eligibleBytes)
    modifies p`rows, p`objects, p`log, p`purged, p`purgedBytes, p`errors, p`cancelled, p`headN, p`chances,
             p`scanned, p`eligible, p`eligibleBytes, p`limitReached
    ensures Keyed(p.rows) && PartlyPurged(PageClips(page, p.opts), old(p.rows), old(p.objects), p.rows, p.objects, p.stuck)
    ensures Grew(old(p.log), p.log, PageIds(page)) && p.errors >= old(p.errors)
    ensures Within(p.opts, p.eligible, p.eligibleBytes) && (!p.opts.apply ==> p.rows == old(p.rows) && p.objects == old(p.objects))
    ensures end.NextPage? ==> !p.cancelled && Accounts(old(p.log), p.log, PageIds(page)) && p.scanned == old(p.scanned) + |page|
    ensures end.NextPage? && clean && p.opts.apply && SoundClips(PageClips(page, p.opts), old(p.objects)) ==>
              NothingLeft(PageClips(page, p.opts), p.rows, p.stuck)
    ensures end.NextPage? && !clean ==> p.errors > old(p.errors)
    ensures end.Limit? ==>
              p.limitReached && Overfull(page, p.opts, p.eligible, p.eligibleBytes)
    ensures n <= |page| && (end.NextPage? ==> n == |page|)
    ensures p.eligible == old(p.eligible) + Chosen(page, n, p.opts)
    ensures p.eligibleBytes == old(p.eligibleBytes) + ChosenBytes(page, n, p.opts)
    ensures end.Aborted? ==> p.errors >= p.opts.maxErrors
    ensures p.Calm() ==> !p.cancelled && !end.Stopped? && !end.Crashed? && (end.NextPage? ==> clean)
    ensures p.Calm() && FreeToDelete(PageClips(page, p.opts), p.stuck) ==> (end.NextPage? || end.Limit?) && p.errors == old(p.errors)
  {
    hide FreeToDelete, Passes, FirstReason, PageState, Accounts, Grew, PartlyPurged, Scanning, NothingLeft, Selected, SoundClips, Sound,
         Overfull, Keyed, Ascending, PageClips, PageIds, Distinct, Ids, ClipSet, Chosen, ChosenBytes, Scanned, NasPurger.Calm, Within;
    ghost var rows0, objects0, log0 := p.rows, p.objects, p.log;
    PageStart(page, p.opts, p.rows, p.objects, p.log, p.stuck);
    var pending: seq<Clip> := [];
    ghost var done: set<nat> := {};
    clean, n := true, 0;
    NoneChosen(page, p.opts);
    var i := 0;
    while i < |page|
      invariant i <= |page| && !p.cancelled && p.errors >= old(p.errors) && p.scanned == old(p.scanned) + i
      invariant Within(p.opts, p.eligible, p.eligibleBytes)
      invariant !clean ==> p.errors > old(p.errors)
      invariant p.Calm() ==> clean
      invariant n == i && p.eligible == old(p.eligible) + Chosen(page, i, p.opts)
      invariant p.eligibleBytes == old(p.eligibleBytes) + ChosenBytes(page, i, p.opts)
      invariant p.Calm() && FreeToDelete(PageClips(page, p.opts), p.stuck) ==> p.errors == old(p.errors)
      invariant PageState(page, i, p.opts, pending, done, clean, rows0, objects0, log0, p.rows, p.objects, p.log, p.stuck)
    {
      p.scanned := p.scanned + 1;
      var full;
      ghost var was, queued, count, bytes := p.log, pending, p.eligible, p.eligibleBytes;
      pending, done, full := ScanOne(p, page, i, pending, done, clean, rows0, objects0, log0);
      ScannedCounts(page, i, p.opts, full, count, bytes, p.eligible, p.eligibleBytes, queued, pending, was, p.log);
      if full {
        p.limitReached := true;
        end := LastFlush(p, page, i, pending, done, clean, rows0, objects0, log0);
        return end, false, n;
      }
      i, n := i + 1, i + 1;
      if |pending| >= p.opts.batchSize {
        var stop;
        end, clean, pending, done, stop := FlushPage(p, page, i, pending, done, clean, rows0, objects0, log0);
        if stop {
          return;
        }
      }
    }
    var stop;
    end, clean, pending, done, stop := FlushPage(p, page, i, pending, done, clean, rows0, objects0, log0);
    if stop {
      return;
    }
    PageDone(page, p.opts, done, clean, rows0, objects0, log0, p.rows, p.objects, p.log, p.stuck);
    return NextPage, clean, n;
  }

  /** All fourteen facts hold, and neither the recording nor the clip is excluded. */
  predicate Passes(c: Candidate, opts: Options) {
    && c.facts.identityOk && c.facts.managedOk && c.facts.rawDelivery && c.facts.noSnapshot && c.facts.noScope && c.facts.noJoinedWindow
    && c.facts.noQualificationWindow && c.facts.noCohortWindow && c.facts.notCandidateRecording && c.facts.playableSignature
    && c.facts.aged && c.facts.scheduleOk && c.facts.noRestore && c.facts.nasOk
    && c.clip.recording !in opts.excludeRecordings && c.clip.id !in opts.excludeClips
  }

  lemma PassesIsSelected(c: Candidate, opts: Options)
    ensures Passes(c, opts) <==> Selected(c, opts)
  {
  }

  /** What scanning one candidate does to the counters, the pending batch and the log. */
  predicate Scanned(c: Candidate, opts: Options, full: bool, eligible: nat, bytes: nat, eligible': nat, bytes': nat, pending: seq<Clip>,
                    left: seq<Clip>, log: seq<Entry>, log': seq<Entry>) {
    var noRoom := (opts.limit > 0 && eligible >= opts.limit) || (opts.maxBytes > 0 && bytes + c.clip.size > opts.maxBytes);
    (full <==> Passes(c, opts) && noRoom)
    && (if Passes(c, opts) && !noRoom then eligible' == eligible + 1 && bytes' == bytes + c.clip.size
        else eligible' == eligible && bytes' == bytes)
    && left == (if Passes(c, opts) && !noRoom && (opts.apply || opts.checkR2) then pending + [c.clip] else pending)
    && (if Passes(c, opts) then log' == (if !noRoom && !opts.apply && !opts.checkR2 then log + [Entry(c.clip.id, Eligible)] else log)
        else |log'| == |log| + 1 && log' == log + [log'[|log|]] && log'[|log|].id == c.clip.id && log'[|log|].note.Skip?
             && FirstReason(c, opts, log'[|log|].note.reason))
  }

  /** What each reason is given for the lack of; the last two come from the store. */
  predicate Holds(c: Candidate, opts: Options, r: Reason) {
    match r
    case IdentityIncomplete => c.facts.identityOk
    case NotManaged => c.facts.managedOk
    case CollatedOnly => c.facts.rawDelivery
    case JoinedSnapshot => c.facts.noSnapshot
    case JoinedScope => c.facts.noScope
    case JoinedWindow => c.facts.noJoinedWindow
    case QualificationWindow => c.facts.noQualificationWindow
    case CohortWindow => c.facts.noCohortWindow
    case CandidateRecording => c.facts.notCandidateRecording
    case Unplayable => c.facts.playableSignature
    case WithinGrace => c.facts.aged
    case RecentActive => c.facts.scheduleOk
    case RecentRestore => c.facts.noRestore
    case NasUnverified => c.facts.nasOk
    case ExcludedRecording => c.clip.recording !in opts.excludeRecordings
    case ExcludedClip => c.clip.id !in opts.excludeClips
    case SizeMismatch | ShaMismatch => true
  }

  /** The order the reasons are looked for in. */
  function Place(r: Reason): nat {
    match r
    case IdentityIncomplete => 0 case NotManaged => 1 case CollatedOnly => 2 case JoinedSnapshot => 3 case JoinedScope => 4
    case JoinedWindow => 5 case QualificationWindow => 6 case CohortWindow => 7 case CandidateRecording => 8 case Unplayable => 9
    case WithinGrace => 10 case RecentActive => 11 case RecentRestore => 12 case NasUnverified => 13 case ExcludedRecording => 14
    case ExcludedClip => 15 case SizeMismatch => 16 case ShaMismatch => 17
  }

  /** The reason of the first condition that does not hold. */
  predicate FirstReason(c: Candidate, opts: Options, r: Reason) {
    !Holds(c, opts, r) && forall other :: Place(other) < Place(r) ==> Holds(c, opts, other)
  }

  lemma ClassifyIsFirst(c: Candidate, opts: Options)
    ensures Classify(c, opts).Some? ==> FirstReason(c, opts, Classify(c, opts).value)
  {
  }

  /** How many of the first `n` candidates pass, and their bytes. */
  function Chosen(page: seq<Candidate>, n: nat, opts: Options): nat
    requires n <= |page|
  {
    if n == 0 then 0 else Chosen(page, n - 1, opts) + if Passes(page[n - 1], opts) then 1 else 0
  }

  function ChosenBytes(page: seq<Candidate>, n: nat, opts: Options): nat
    requires n <= |page|
  {
    if n == 0 then 0 else ChosenBytes(page, n - 1, opts) + if Passes(page[n - 1], opts) then page[n - 1].clip.size else 0
  }

  lemma NoneChosen(page: seq<Candidate>, opts: Options)
    ensures Chosen(page, 0, opts) == 0 && ChosenBytes(page, 0, opts) == 0
  {
  }

  lemma ScannedCounts(page: seq<Candidate>, i: nat, opts: Options, full: bool, eligible: nat, bytes: nat, eligible': nat, bytes': nat,
                      pending: seq<Clip>, left: seq<Clip>, log: seq<Entry>, log': seq<Entry>)
    requires i < |page| && Scanned(page[i], opts, full, eligible, bytes, eligible', bytes', pending, left, log, log')
    ensures full ==> eligible' == eligible && bytes' == bytes
    ensures !full ==>
              eligible' - eligible == Chosen(page, i + 1, opts) - Chosen(page, i, opts)
              && bytes' - bytes == ChosenBytes(page, i + 1, opts) - ChosenBytes(page, i, opts)
  {
    hide Passes, FirstReason;
  }

  /** One candidate: skipped, over the limits, counted in a dry run, or queued for the next batch. */
  method ScanOne(p: NasPurger, page: seq<Candidate>, i: nat, pending: seq<Clip>, ghost done: set<nat>, ghost clean: bool, ghost rows0: Rows,
                 ghost objects0: Objects, ghost log0: seq<Entry>) returns (left: seq<Clip>, ghost settled: set<nat>, full: bool)
    requires i < |page| && Within(p.opts, p.eligible, p.eligibleBytes)
    requires PageState(page, i, p.opts, pending, done, clean, rows0, objects0, log0, p.rows, p.objects, p.log, p.stuck)
    modifies p`log, p`eligible, p`eligibleBytes
    ensures Within(p.opts, p.eligible, p.eligibleBytes)
    ensures Scanned(page[i], p.opts, full, old(p.eligible), old(p.eligibleBytes), p.eligible, p.eligibleBytes, pending, left,
                    old(p.log), p.log)
    ensures full ==> left == pending && settled == done && p.log == old(p.log) && Overfull(page, p.opts, p.eligible, p.eligibleBytes)
    ensures !full ==> PageState(page, i + 1, p.opts, left, settled, clean, rows0, objects0, log0, p.rows, p.objects, p.log, p.stuck)
  {
    hide PageState, Selected, Overfull, Passes, FirstReason;
    ClassifyIsFirst(page[i], p.opts);
    var c := page[i];
    PassesIsSelected(c, p.opts);
    var reason := Classify(c, p.opts);
    if reason.Some? {
      PageNotes(page, i, p.opts, pending, done, clean, rows0, objects0, log0, p.rows, p.objects, p.log, p.stuck, Skip(reason.value));
      p.Note(c.clip.id, Skip(reason.value));
      return pending, done + {c.clip.id}, false;
    }
    if (p.opts.limit > 0 && p.eligible >= p.opts.limit)
       || (p.opts.maxBytes > 0 && p.eligibleBytes + c.clip.size > p.opts.maxBytes) {
      OverfullAt(page, i, p.opts, p.eligible, p.eligibleBytes);
      return pending, done, true;
    }
    p.eligible := p.eligible + 1;
    p.eligibleBytes := p.eligibleBytes + c.clip.size;
    if !p.opts.apply && !p.opts.checkR2 {
      PageNotes(page, i, p.opts, pending, done, clean, rows0, objects0, log0, p.rows, p.objects, p.log, p.stuck, Eligible);
      p.Note(c.clip.id, Eligible);
      return pending, done + {c.clip.id}, false;
    }
    PageQueues(page, i, p.opts, pending, done, clean, rows0, objects0, log0, p.rows, p.objects, p.log, p.stuck);
    return pending + [c.clip], done, false;
  }

  /** A flush inside a page, with the interruption check after it. */
  method FlushPage(p: NasPurger, page: seq<Candidate>, i: nat, pending: seq<Clip>, ghost done: set<nat>, ghost clean: bool,
                   ghost rows0: Rows, ghost objects0: Objects, ghost log0: seq<Entry>)
    returns (end: PageEnd, ghost still: bool, left: seq<Clip>, ghost settled: set<nat>, stop: bool)
    requires PageState(page, i, p.opts, pending, done, clean, rows0, objects0, log0, p.rows, p.objects, p.log, p.stuck)
    modifies p`rows, p`objects, p`log, p`purged, p`purgedBytes, p`errors, p`cancelled, p`headN, p`chances
    ensures p.errors >= old(p.errors) && left == [] && (still ==> clean)
    ensures Keyed(p.rows) && PartlyPurged(PageClips(page, p.opts), rows0, objects0, p.rows, p.objects, p.stuck)
      && Grew(log0, p.log, PageIds(page))
    ensures !p.opts.apply ==> p.rows == rows0 && p.objects == objects0
    ensures stop ==> end.Aborted? || end.Stopped? || end.Crashed?
    ensures end.Aborted? ==> p.errors >= p.opts.maxErrors
    ensures p.Calm() && !old(p.cancelled) ==> !p.cancelled && (stop ==> end.Aborted?) && (!stop ==> still == clean)
    ensures p.Calm() && !old(p.cancelled) && FreeToDelete(PageClips(page, p.opts), p.stuck) ==> !stop && p.errors == old(p.errors)
    ensures !stop ==>
              !p.cancelled && (!still && clean ==> p.errors > old(p.errors))
              && PageState(page, i, p.opts, left, settled, still, rows0, objects0, log0, p.rows, p.objects, p.log, p.stuck)
  {
    ghost var rows, objects, log := p.rows, p.objects, p.log;
    PageParts(page, i, p.opts, pending, done, clean, rows0, objects0, log0, rows, objects, log, p.stuck);
    hide PageState, Accounts, Grew, PartlyPurged, Scanning, NothingLeft, SoundClips, Sound;
    PendingFree(page, i, p.opts, pending, done, clean, rows0, objects0, log0, rows, objects, log, p.stuck);
    var flow, ok := Flush(p, pending);
    PageFlushes(page, i, p.opts, pending, done, clean, ok, rows0, objects0, log0, rows, objects, log, p.rows, p.objects, p.log, p.stuck);
    settled := done + Ids(pending);
    match flow {
      case Abort => return Aborted, false, [], settled, true;
      case Dead => return Crashed, false, [], settled, true;
      case Continue =>
    }
    var over := p.Poll();
    if over {
      return Stopped, false, [], settled, true;
    }
    return NextPage, clean && ok, [], settled, false;
  }

  /** The flush when the next selected clip does not fit under the limits. */
  method LastFlush(p: NasPurger, page: seq<Candidate>, i: nat, pending: seq<Clip>, ghost done: set<nat>, ghost clean: bool,
                   ghost rows0: Rows, ghost objects0: Objects, ghost log0: seq<Entry>) returns (end: PageEnd)
    requires PageState(page, i, p.opts, pending, done, clean, rows0, objects0, log0, p.rows, p.objects, p.log, p.stuck)
    modifies p`rows, p`objects, p`log, p`purged, p`purgedBytes, p`errors, p`cancelled, p`headN, p`chances
    ensures p.errors >= old(p.errors) && (end.Limit? || end.Aborted? || end.Crashed?)
    ensures Keyed(p.rows) && PartlyPurged(PageClips(page, p.opts), rows0, objects0, p.rows, p.objects, p.stuck)
      && Grew(log0, p.log, PageIds(page))
    ensures !p.opts.apply ==> p.rows == rows0 && p.objects == objects0
    ensures end.Aborted? ==> p.errors >= p.opts.maxErrors
    ensures p.Calm() ==> p.cancelled == old(p.cancelled) && !end.Crashed?
    ensures p.Calm() && FreeToDelete(PageClips(page, p.opts), p.stuck) ==> end.Limit? && p.errors == old(p.errors)
  {
    ghost var rows, objects, log := p.rows, p.objects, p.log;
    PageParts(page, i, p.opts, pending, done, clean, rows0, objects0, log0, rows, objects, log, p.stuck);
    hide PageState, Accounts, Grew, PartlyPurged, Scanning, NothingLeft, SoundClips, Sound;
    PendingFree(page, i, p.opts, pending, done, clean, rows0, objects0, log0, rows, objects, log, p.stuck);
    var flow, ok := Flush(p, pending);
    PageFlushes(page, i, p.opts, pending, done, clean, ok, rows0, objects0, log0, rows, objects, log, p.rows, p.objects, p.log, p.stuck);
    return if flow.Continue? then Limit else if flow.Abort? then Aborted else Crashed;
  }

  /** None of these clips is stored under a key the store always refuses to delete. */
  predicate FreeToDelete(clips: set<Clip>, stuck: set<ObjectName>) { forall c :: c in clips ==> c.key !in stuck }

  lemma PendingFree(page: seq<Candidate>, i: nat, opts: Options, pending: seq<Clip>, done: set<nat>, clean: bool, rows0: Rows,
                    objects0: Objects, log0: seq<Entry>, rows: Rows, objects: Objects, log: seq<Entry>, stuck: set<ObjectName>)
    requires PageState(page, i, opts, pending, done, clean, rows0, objects0, log0, rows, objects, log, stuck)
    ensures FreeToDelete(PageClips(page, opts), stuck) ==> NoneStuck(pending, stuck)
  {
    PendingInPage(page, i, opts, pending, done, log0, log);
    forall k | 0 <= k < |pending| ensures pending[k] in PageClips(page, opts) { assert pending[k] in ClipSet(pending); }
  }

  lemma PageParts(page: seq<Candidate>, i: nat, opts: Options, pending: seq<Clip>, done: set<nat>, clean: bool, rows0: Rows,
                  objects0: Objects, log0: seq<Entry>, rows: Rows, objects: Objects, log: seq<Entry>, stuck: set<ObjectName>)
    requires PageState(page, i, opts, pending, done, clean, rows0, objects0, log0, rows, objects, log, stuck)
    ensures Keyed(rows) && Distinct(pending) && (!opts.apply ==> rows == rows0 && objects == objects0)
  {
  }

  lemma PageDone(page: seq<Candidate>, opts: Options, done: set<nat>, clean: bool, rows0: Rows, objects0: Objects, log0: seq<Entry>,
                 rows: Rows, objects: Objects, log: seq<Entry>, stuck: set<ObjectName>)
    requires PageState(page, |page|, opts, [], done, clean, rows0, objects0, log0, rows, objects, log, stuck)
    ensures Accounts(log0, log, PageIds(page))
    ensures clean && opts.apply && SoundClips(PageClips(page, opts), objects0) ==> NothingLeft(PageClips(page, opts), rows, stuck)
  {
    ScanDone(page, opts, done, log0, log);
  }

  // ----- the pass -----

  function Below(clips: set<Clip>, last: nat): set<Clip> { set c | c in clips && c.id <= last }

  /** Everything up to `after` is settled, everything above it as it was. */
  ghost predicate PassState(opts: Options, after: nat, clean: bool, rows0: Rows, objects0: Objects, log0: seq<Entry>, rows: Rows,
                            objects: Objects, log: seq<Entry>, stuck: set<ObjectName>) {
    var all := SelectedClips(rows0, opts, opts.after);
    Keyed(rows0) && Keyed(rows) && opts.after <= after
    && PartlyPurged(all, rows0, objects0, rows, objects, stuck)
    && Accounts(log0, log, UpTo(CandidateIds(rows0, opts, opts.after), after))
    && (forall id :: id in rows0 && id > after ==> id in rows && rows[id] == rows0[id])
    && (!opts.apply ==> rows == rows0 && objects == objects0)
    && (clean && opts.apply && SoundClips(all, objects0) ==> NothingLeft(Below(all, after), rows, stuck))
  }

  lemma PassBegins(opts: Options, rows: Rows, objects: Objects, log: seq<Entry>, stuck: set<ObjectName>)
    requires Keyed(rows)
    ensures PassState(opts, opts.after, true, rows, objects, log, rows, objects, log, stuck)
  {
    var all := SelectedClips(rows, opts, opts.after);
    PartlyNothing(all, rows, objects, stuck);
    AccountsNothing(log);
    assert UpTo(CandidateIds(rows, opts, opts.after), opts.after) == {};
    assert Below(all, opts.after) == {};
  }

  /** The next page is the next stretch of the full scan. */
  lemma PageOfScan(opts: Options, after: nat, rows0: Rows, rows: Rows, page: seq<Candidate>)
    requires Keyed(rows0) && Keyed(rows) && opts.after <= after && page != [] && AsRead(page, rows) && rows.Keys == rows0.Keys
    requires forall id :: id in rows0 && id > after ==> rows[id] == rows0[id]
    requires PageIds(page) == UpTo(CandidateIds(rows, opts, after), page[|page| - 1].clip.id)
    ensures var all, last, ids := SelectedClips(rows0, opts, opts.after), page[|page| - 1].clip.id, CandidateIds(rows0, opts, opts.after);
            last > after && last in ids && PageIds(page) !! UpTo(ids, after) && UpTo(ids, after) + PageIds(page) == UpTo(ids, last)
            && PageClips(page, opts) <= all && Below(all, last) == Below(all, after) + PageClips(page, opts)
            && forall id :: id in PageIds(page) ==> after < id <= last
  {
    var all, last, ids := SelectedClips(rows0, opts, opts.after), page[|page| - 1].clip.id, CandidateIds(rows0, opts, opts.after);
    assert last in PageIds(page);
    forall c | c in PageClips(page, opts) ensures c in all && after < c.id <= last {
      var x :| x in page && Selected(x, opts) && x.clip == c;
      var i :| 0 <= i < |page| && page[i] == x;
      assert c.id in PageIds(page);
    }
    forall c | c in all && after < c.id <= last ensures c in PageClips(page, opts) {
      var id :| id in ids && Selected(Candidate(rows0[id].clip, rows0[id].facts), opts) && rows0[id].clip == c;
      assert id in PageIds(page);
      var x :| x in page && x.clip.id == id;
      var i :| 0 <= i < |page| && page[i] == x;
    }
  }

  /** A page ended, one way or another. */
  lemma PassPage(opts: Options, after: nat, clean: bool, ok: bool, page: seq<Candidate>, rows0: Rows, objects0: Objects, log0: seq<Entry>,
                 rows: Rows, objects: Objects, log: seq<Entry>, rows': Rows, objects': Objects, log': seq<Entry>, stuck: set<ObjectName>)
    requires PassState(opts, after, clean, rows0, objects0, log0, rows, objects, log, stuck) && Keyed(rows')
    requires page != [] && AsRead(page, rows) && PageIds(page) == UpTo(CandidateIds(rows, opts, after), page[|page| - 1].clip.id)
    requires PartlyPurged(PageClips(page, opts), rows, objects, rows', objects', stuck)
    requires !opts.apply ==> rows' == rows && objects' == objects
    requires ok && opts.apply && SoundClips(PageClips(page, opts), objects) ==> NothingLeft(PageClips(page, opts), rows', stuck)
    ensures var all := SelectedClips(rows0, opts, opts.after);
            PartlyPurged(all, rows0, objects0, rows', objects', stuck) && (!opts.apply ==> rows' == rows0 && objects' == objects0)
            && (clean && opts.apply && SoundClips(all, objects0) ==> NothingLeft(Below(all, after), rows', stuck))
    ensures Accounts(log, log', PageIds(page)) ==>
              PassState(opts, page[|page| - 1].clip.id, clean && ok, rows0, objects0, log0, rows', objects', log', stuck)
    ensures page[|page| - 1].clip.id > after && page[|page| - 1].clip.id in CandidateIds(rows0, opts, opts.after)
    ensures forall id :: id in PageIds(page) ==> id > after
  {
    var all, last, ids := SelectedClips(rows0, opts, opts.after), page[|page| - 1].clip.id, CandidateIds(rows0, opts, opts.after);
    var part := PageClips(page, opts);
    PageOfScan(opts, after, rows0, rows, page);
    hide SelectedClips, CandidateIds, UpTo, Below, FateOf, PageClips, AsRead;
    PartlyMore(part, all, rows, objects, rows', objects', stuck);
    PartlyThen(all, rows0, objects0, rows, objects, rows', objects', stuck);
    if NothingLeft(Below(all, after), rows, stuck) {
      StillNothing(Below(all, after), part, rows, objects, rows', objects', stuck);
    }
    if Accounts(log, log', PageIds(page)) {
      AccountsThen(log0, log, log', UpTo(ids, after), PageIds(page));
    }
    OnlyPageRows(page, opts, rows, objects, rows', objects', stuck);
  }

  lemma OnlyPageRows(page: seq<Candidate>, opts: Options, rows: Rows, objects: Objects, rows': Rows, objects': Objects,
                     stuck: set<ObjectName>)
    requires Keyed(rows) && PartlyPurged(PageClips(page, opts), rows, objects, rows', objects', stuck)
    ensures forall id :: id in rows && id !in PageIds(page) ==> id in rows' && rows'[id] == rows[id]
  {
  }

  /** The candidates a pass has settled have exactly one disposition each. */
  ghost predicate SettledUpTo(ids: set<nat>, last: nat, before: seq<Entry>, log: seq<Entry>) {
    forall id :: id in ids && id <= last ==> Count(log, id) == Count(before, id) + 1
  }

  lemma PassSettled(ids: set<nat>, after: nat, before: seq<Entry>, mid: seq<Entry>, log: seq<Entry>, page: set<nat>)
    requires Accounts(before, mid, UpTo(ids, after)) && Grew(mid, log, page) && forall id :: id in page ==> id > after
    ensures SettledUpTo(ids, after, before, log)
  {
  }

  lemma PassFinishes(opts: Options, after: nat, clean: bool, rows0: Rows, objects0: Objects, log0: seq<Entry>, rows: Rows,
                     objects: Objects, log: seq<Entry>, stuck: set<ObjectName>)
    requires PassState(opts, after, clean, rows0, objects0, log0, rows, objects, log, stuck) && CandidateIds(rows, opts, after) == {}
    ensures Accounts(log0, log, CandidateIds(rows0, opts, opts.after))
    ensures var all := SelectedClips(rows0, opts, opts.after);
            clean && opts.apply && SoundClips(all, objects0) ==> NothingLeft(all, rows, stuck)
  {
    var all, ids := SelectedClips(rows0, opts, opts.after), CandidateIds(rows0, opts, opts.after);
    forall id | id in ids && id > after ensures id in CandidateIds(rows, opts, after) {
    }
    assert UpTo(ids, after) == ids;
    assert Below(all, after) == all;
  }

  /**
   The pass. However it ends: a row marked as purged has no object left; only selected clips were touched, and each of
   them wholly or in a way the next run completes; every candidate up to `lastClipId` has exactly one disposition; the
   limits hold. If it finishes, the dispositions are exactly those of one full scan, and if nothing broke off the state
   is the one every run aims at.
   */
  method RunPass(p: NasPurger) returns (end: Ending, ghost clean: bool)
    requires Keyed(p.rows) && p.opts.Valid() && p.lastClipId == p.opts.after && Within(p.opts, p.eligible, p.eligibleBytes)
    modifies p
    ensures var all, ids := SelectedClips(old(p.rows), p.opts, p.opts.after), CandidateIds(old(p.rows), p.opts, p.opts.after);
            Keyed(p.rows) && PartlyPurged(all, old(p.rows), old(p.objects), p.rows, p.objects, p.stuck)
            && SettledUpTo(ids, p.lastClipId, old(p.log), p.log)
            && (end.Finished? ==> Accounts(old(p.log), p.log, ids))
            && (clean && p.opts.apply && SoundClips(all, old(p.objects)) ==>
                  NothingLeft(if end.Finished? then all else Below(all, p.lastClipId), p.rows, p.stuck))
    ensures Gone(old(p.rows), old(p.objects)) ==> Gone(p.rows, p.objects)
    ensures p.lastClipId >= p.opts.after && Within(p.opts, p.eligible, p.eligibleBytes)
    ensures !p.opts.apply ==> p.rows == old(p.rows) && p.objects == old(p.objects)
    ensures p.errors >= old(p.errors) && (!clean ==> p.errors > old(p.errors))
    ensures (end.Interrupted? ==> p.interrupted) && (end.LimitEnd? ==> p.limitReached)
    ensures p.Calm() && !old(p.cancelled) ==> clean && (end.Finished? || end.LimitEnd? || p.errors >= p.opts.maxErrors)
    ensures p.Calm() && !old(p.cancelled) && FreeToDelete(SelectedClips(old(p.rows), p.opts, p.opts.after), p.stuck) ==>
              (end.Finished? || end.LimitEnd?) && p.errors == old(p.errors)
    ensures p.opts.limit == 0 && p.opts.maxBytes == 0 ==> !end.LimitEnd?
  {
    hide NasPurger.Calm, FreeToDelete, PassState, PassEnd, SelectedClips, CandidateIds, Keyed, Within, Gone;
    ghost var rows0, objects0, log0 := p.rows, p.objects, p.log;
    ghost var ids := CandidateIds(rows0, p.opts, p.opts.after);
    ghost var calm, free := p.Calm() && !p.cancelled, FreeToDelete(SelectedClips(rows0, p.opts, p.opts.after), p.stuck);
    PassBegins(p.opts, p.rows, p.objects, p.log, p.stuck);
    var after := p.opts.after;
    clean := true;
    while true
      invariant PassState(p.opts, after, clean, rows0, objects0, log0, p.rows, p.objects, p.log, p.stuck)
      invariant p.lastClipId == after && Within(p.opts, p.eligible, p.eligibleBytes)
      invariant p.errors >= old(p.errors) && (!clean ==> p.errors > old(p.errors))
      invariant calm ==> clean && !p.cancelled
      invariant calm && free ==> p.errors == old(p.errors)
      decreases Remaining(ids, after)
    {
      var over, last;
      over, last, clean := NextPageOf(p, after, clean, rows0, objects0, log0);
      if over.Some? {
        PassEnds(p.opts, p.lastClipId, over.value, clean, rows0, objects0, log0, p.rows, p.objects, p.log, p.stuck);
        return over.value, clean;
      }
      RemainingLess(ids, after, last);
      after := last;
    }
  }

  /** What a pass promises about its end, whatever it is. */
  ghost predicate PassEnd(opts: Options, last: nat, end: Ending, clean: bool, rows0: Rows, objects0: Objects, log0: seq<Entry>, rows: Rows,
                          objects: Objects, log: seq<Entry>, stuck: set<ObjectName>) {
    var all, ids := SelectedClips(rows0, opts, opts.after), CandidateIds(rows0, opts, opts.after);
    Keyed(rows) && PartlyPurged(all, rows0, objects0, rows, objects, stuck) && SettledUpTo(ids, last, log0, log)
    && (end.Finished? ==> Accounts(log0, log, ids))
    && (clean && opts.apply && SoundClips(all, objects0) ==> NothingLeft(if end.Finished? then all else Below(all, last), rows, stuck))
    && last >= opts.after && (!opts.apply ==> rows == rows0 && objects == objects0)
  }

  lemma PassEnds(opts: Options, last: nat, end: Ending, clean: bool, rows0: Rows, objects0: Objects, log0: seq<Entry>, rows: Rows,
                 objects: Objects, log: seq<Entry>, stuck: set<ObjectName>)
    requires PassEnd(opts, last, end, clean, rows0, objects0, log0, rows, objects, log, stuck)
    ensures var all, ids := SelectedClips(rows0, opts, opts.after), CandidateIds(rows0, opts, opts.after);
            Keyed(rows) && PartlyPurged(all, rows0, objects0, rows, objects, stuck) && SettledUpTo(ids, last, log0, log)
            && (end.Finished? ==> Accounts(log0, log, ids))
            && (clean && opts.apply && SoundClips(all, objects0) ==>
                  NothingLeft(if end.Finished? then all else Below(all, last), rows, stuck))
    ensures last >= opts.after && (!opts.apply ==> rows == rows0 && objects == objects0)
    ensures Gone(rows0, objects0) ==> Gone(rows, objects)
  {
    hide SelectedClips, CandidateIds;
    PassGone(opts, rows0, objects0, rows, objects, stuck);
  }

  lemma EndsBetween(opts: Options, after: nat, clean: bool, rows0: Rows, objects0: Objects, log0: seq<Entry>, rows: Rows,
                    objects: Objects, log: seq<Entry>, stuck: set<ObjectName>, end: Ending)
    requires PassState(opts, after, clean, rows0, objects0, log0, rows, objects, log, stuck)
    ensures !end.Finished? ==> PassEnd(opts, after, end, clean, rows0, objects0, log0, rows, objects, log, stuck)
  {
    PassParts(opts, after, clean, rows0, objects0, log0, rows, objects, log, stuck);
    hide PassState, PartlyPurged, SettledUpTo, SelectedClips, CandidateIds, SoundClips, NothingLeft;
  }

  lemma EndsAtLast(opts: Options, after: nat, clean: bool, rows0: Rows, objects0: Objects, log0: seq<Entry>, rows: Rows,
                   objects: Objects, log: seq<Entry>, stuck: set<ObjectName>)
    requires PassState(opts, after, clean, rows0, objects0, log0, rows, objects, log, stuck) && CandidateIds(rows, opts, after) == {}
    ensures PassEnd(opts, after, Finished, clean, rows0, objects0, log0, rows, objects, log, stuck)
  {
    PassParts(opts, after, clean, rows0, objects0, log0, rows, objects, log, stuck);
    PassFinishes(opts, after, clean, rows0, objects0, log0, rows, objects, log, stuck);
    hide PassState, PartlyPurged, SettledUpTo, SelectedClips, CandidateIds, SoundClips, NothingLeft;
  }

  lemma EndsInPage(opts: Options, after: nat, clean: bool, ok: bool, page: seq<Candidate>, rows0: Rows, objects0: Objects, log0: seq<Entry>,
                   rows: Rows, objects: Objects, log: seq<Entry>, rows': Rows, objects': Objects, log': seq<Entry>, stuck: set<ObjectName>,
                   end: Ending)
    requires PassState(opts, after, clean, rows0, objects0, log0, rows, objects, log, stuck) && Keyed(rows')
    requires page != [] && AsRead(page, rows) && PageIds(page) == UpTo(CandidateIds(rows, opts, after), page[|page| - 1].clip.id)
    requires PartlyPurged(PageClips(page, opts), rows, objects, rows', objects', stuck) && Grew(log, log', PageIds(page))
    requires !opts.apply ==> rows' == rows && objects' == objects
    requires ok && opts.apply && SoundClips(PageClips(page, opts), objects) ==> NothingLeft(PageClips(page, opts), rows', stuck)
    ensures !end.Finished? ==> PassEnd(opts, after, end, clean, rows0, objects0, log0, rows', objects', log', stuck)
    ensures Accounts(log, log', PageIds(page)) ==>
              PassState(opts, page[|page| - 1].clip.id, clean && ok, rows0, objects0, log0, rows', objects', log', stuck)
    ensures page[|page| - 1].clip.id > after && page[|page| - 1].clip.id in CandidateIds(rows0, opts, opts.after)
  {
    hide AsRead, PageClips, PageIds, UpTo, Grew, PassState, PartlyPurged, SettledUpTo, SelectedClips, CandidateIds, SoundClips, NothingLeft,
         Accounts, Keyed;
    PassPage(opts, after, clean, ok, page, rows0, objects0, log0, rows, objects, log, rows', objects', log', stuck);
    PassParts(opts, after, clean, rows0, objects0, log0, rows, objects, log, stuck);
    PassAccounts(opts, after, clean, rows0, objects0, log0, rows, objects, log, stuck);
    PassSettled(CandidateIds(rows0, opts, opts.after), after, log0, log, log', PageIds(page));
  }

  /** Poll, load and scan the next page; `over` is how the pass ended, if it did. */
  method NextPageOf(p: NasPurger, after: nat, ghost clean: bool, ghost rows0: Rows, ghost objects0: Objects, ghost log0: seq<Entry>)
    returns (over: Option<Ending>, last: nat, ghost still: bool)
    requires PassState(p.opts, after, clean, rows0, objects0, log0, p.rows, p.objects, p.log, p.stuck)
    requires p.opts.Valid() && p.lastClipId == after && Within(p.opts, p.eligible, p.eligibleBytes)
    modifies p
    ensures Within(p.opts, p.eligible, p.eligibleBytes) && p.errors >= old(p.errors)
    ensures over.Some? ==>
              PassEnd(p.opts, p.lastClipId, over.value, still, rows0, objects0, log0, p.rows, p.objects, p.log, p.stuck) && still == clean
              && (over.value.Interrupted? ==> p.interrupted) && (over.value.LimitEnd? ==> p.limitReached)
              && (p.opts.limit == 0 && p.opts.maxBytes == 0 ==> !over.value.LimitEnd?)
    ensures over.None? ==>
              PassState(p.opts, last, still, rows0, objects0, log0, p.rows, p.objects, p.log, p.stuck) && p.lastClipId == last
              && last > after && last in CandidateIds(rows0, p.opts, p.opts.after) && (clean && !still ==> p.errors > old(p.errors))
              && (still ==> clean)
    ensures p.Calm() && !old(p.cancelled) ==>
              if over.Some? then over.value.Finished? || over.value.LimitEnd? || p.errors >= p.opts.maxErrors
              else still == clean && !p.cancelled
    ensures p.Calm() && !old(p.cancelled) && FreeToDelete(SelectedClips(rows0, p.opts, p.opts.after), p.stuck) ==>
              p.errors == old(p.errors) && (over.Some? ==> over.value.Finished? || over.value.LimitEnd?)
  {
    hide NasPurger.Calm, FreeToDelete, PassState, PassEnd, PartlyPurged, Accounts, Grew, NothingLeft, SelectedClips, CandidateIds, UpTo,
         PageClips, PageIds, AsRead, Ascending, SoundClips, Keyed, Within, Overfull;
    PassParts(p.opts, after, clean, rows0, objects0, log0, p.rows, p.objects, p.log, p.stuck);
    last, still := after, clean;
    var stop := p.Poll();
    if stop {
      EndsBetween(p.opts, after, clean, rows0, objects0, log0, p.rows, p.objects, p.log, p.stuck, Interrupted);
      p.interrupted := true;
      return Some(Interrupted), last, still;
    }
    var broken := p.Strikes();
    if broken {
      EndsBetween(p.opts, after, clean, rows0, objects0, log0, p.rows, p.objects, p.log, p.stuck, Failed);
      return Some(Failed), last, still;
    }
    var page := LoadPage(p, after);
    if page == [] {
      EndsAtLast(p.opts, after, clean, rows0, objects0, log0, p.rows, p.objects, p.log, p.stuck);
      return Some(Finished), last, still;
    }
    over, last, still := PageScanned(p, page, after, clean, rows0, objects0, log0);
  }

  /** The page is scanned, and the pass goes on behind it if all of it is settled. */
  method PageScanned(p: NasPurger, page: seq<Candidate>, after: nat, ghost clean: bool, ghost rows0: Rows, ghost objects0: Objects,
                     ghost log0: seq<Entry>)
    returns (over: Option<Ending>, last: nat, ghost still: bool)
    requires PassState(p.opts, after, clean, rows0, objects0, log0, p.rows, p.objects, p.log, p.stuck) && Keyed(p.rows)
    requires p.opts.Valid() && p.lastClipId == after && Within(p.opts, p.eligible, p.eligibleBytes) && !p.cancelled
    requires page != [] && Ascending(page) && AsRead(page, p.rows)
    requires PageIds(page) == UpTo(CandidateIds(p.rows, p.opts, after), page[|page| - 1].clip.id)
    modifies p
    ensures Within(p.opts, p.eligible, p.eligibleBytes) && p.errors >= old(p.errors)
    ensures over.Some? ==>
              PassEnd(p.opts, p.lastClipId, over.value, still, rows0, objects0, log0, p.rows, p.objects, p.log, p.stuck) && still == clean
              && (over.value.Interrupted? ==> p.interrupted) && (over.value.LimitEnd? ==> p.limitReached)
              && (p.opts.limit == 0 && p.opts.maxBytes == 0 ==> !over.value.LimitEnd?)
    ensures over.None? ==>
              PassState(p.opts, last, still, rows0, objects0, log0, p.rows, p.objects, p.log, p.stuck) && p.lastClipId == last
              && last > after && last in CandidateIds(rows0, p.opts, p.opts.after) && (clean && !still ==> p.errors > old(p.errors))
              && (still ==> clean)
    ensures p.Calm() ==>
              if over.Some? then over.value.Finished? || over.value.LimitEnd? || p.errors >= p.opts.maxErrors
              else still == clean && !p.cancelled
    ensures p.Calm() && FreeToDelete(SelectedClips(rows0, p.opts, p.opts.after), p.stuck) ==>
              p.errors == old(p.errors) && (over.Some? ==> over.value.Finished? || over.value.LimitEnd?)
  {
    hide NasPurger.Calm, FreeToDelete, PassState, PassEnd, PartlyPurged, Accounts, Grew, NothingLeft, SelectedClips, CandidateIds, UpTo,
         PageClips, PageIds, AsRead, Ascending, SoundClips, Keyed, Within, Overfull;
    ghost var rows, objects, log := p.rows, p.objects, p.log;
    PageFree(p.opts, after, clean, rows0, objects0, log0, rows, objects, log, p.stuck, page);
    var done, ok, n := ScanPage(p, page);
    NeverFull(page, p.opts, p.eligible, p.eligibleBytes);
    var end := match done { case Limit => LimitEnd case Stopped => Interrupted case Aborted => Failed case _ => ProcessDied };
    EndsInPage(p.opts, after, clean, ok && done.NextPage?, page, rows0, objects0, log0, rows, objects, log, p.rows,
               p.objects, p.log, p.stuck, end);
    if !done.NextPage? {
      if done.Stopped? {
        p.interrupted := true;
      }
      return Some(end), after, clean;
    }
    last, still := page[|page| - 1].clip.id, clean && ok;
    p.lastClipId := last;
    over := None;
  }

  lemma PassGone(opts: Options, rows0: Rows, objects0: Objects, rows: Rows, objects: Objects, stuck: set<ObjectName>)
    requires PartlyPurged(SelectedClips(rows0, opts, opts.after), rows0, objects0, rows, objects, stuck)
    ensures Gone(rows0, objects0) ==> Gone(rows, objects)
  {
    if Gone(rows0, objects0) {
      GoneStays(SelectedClips(rows0, opts, opts.after), rows0, objects0, rows, objects, stuck);
    }
  }

  lemma PageFree(opts: Options, after: nat, clean: bool, rows0: Rows, objects0: Objects, log0: seq<Entry>, rows: Rows, objects: Objects,
                 log: seq<Entry>, stuck: set<ObjectName>, page: seq<Candidate>)
    requires PassState(opts, after, clean, rows0, objects0, log0, rows, objects, log, stuck)
    requires page != [] && AsRead(page, rows) && PageIds(page) == UpTo(CandidateIds(rows, opts, after), page[|page| - 1].clip.id)
    ensures FreeToDelete(SelectedClips(rows0, opts, opts.after), stuck) ==> FreeToDelete(PageClips(page, opts), stuck)
  {
    PageOfScan(opts, after, rows0, rows, page);
    hide SelectedClips, CandidateIds, PageClips, AsRead, UpTo;
  }

  lemma NeverFull(page: seq<Candidate>, opts: Options, eligible: nat, eligibleBytes: nat)
    ensures opts.limit == 0 && opts.maxBytes == 0 ==> !Overfull(page, opts, eligible, eligibleBytes)
  {
  }

  function Remaining(ids: set<nat>, after: nat): set<nat> { set id | id in ids && id > after }

  lemma RemainingLess(ids: set<nat>, after: nat, last: nat)
    requires last in ids && last > after
    ensures Remaining(ids, last) < Remaining(ids, after)
  {
    assert last in Remaining(ids, after) && last !in Remaining(ids, last);
  }

  lemma PassAccounts(opts: Options, after: nat, clean: bool, rows0: Rows, objects0: Objects, log0: seq<Entry>, rows: Rows,
                     objects: Objects, log: seq<Entry>, stuck: set<ObjectName>)
    requires PassState(opts, after, clean, rows0, objects0, log0, rows, objects, log, stuck)
    ensures Accounts(log0, log, UpTo(CandidateIds(rows0, opts, opts.after), after))
  {
  }

  lemma PassParts(opts: Options, after: nat, clean: bool, rows0: Rows, objects0: Objects, log0: seq<Entry>, rows: Rows,
                  objects: Objects, log: seq<Entry>, stuck: set<ObjectName>)
    requires PassState(opts, after, clean, rows0, objects0, log0, rows, objects, log, stuck)
    ensures var all, ids := SelectedClips(rows0, opts, opts.after), CandidateIds(rows0, opts, opts.after);
            Keyed(rows) && opts.after <= after && PartlyPurged(all, rows0, objects0, rows, objects, stuck)
            && (!opts.apply ==> rows == rows0 && objects == objects0) && SettledUpTo(ids, after, log0, log)
            && (clean && opts.apply && SoundClips(all, objects0) ==> NothingLeft(Below(all, after), rows, stuck))
  {
  }

  /** A row that the options, a rule or the retention trigger protect keeps its mark and its object through any run. */
  lemma ProtectedStays(id: nat, opts: Options, rows: Rows, objects: Objects, rows': Rows, objects': Objects, stuck: set<ObjectName>)
    requires Keyed(rows) && PartlyPurged(SelectedClips(rows, opts, opts.after), rows, objects, rows', objects', stuck)
    requires forall a, b :: a in rows && b in rows && rows[a].clip.key == rows[b].clip.key ==> a == b
    requires id in rows
    requires id <= opts.after || (opts.until > 0 && id > opts.until) || !rows[id].inScope || rows[id].purged || rows[id].refused
             || rows[id].clip.recording in opts.excludeRecordings || id in opts.excludeClips
             || !Passes(Candidate(rows[id].clip, rows[id].facts), opts)
    ensures rows'[id] == rows[id]
    ensures var k := rows[id].clip.key; k in objects ==> k in objects' && objects'[k] == objects[k]
  {
    var c := Candidate(rows[id].clip, rows[id].facts);
    PassesIsSelected(c, opts);
    if rows[id].clip in SelectedClips(rows, opts, opts.after) {
      var other :| other in CandidateIds(rows, opts, opts.after) && Selected(Candidate(rows[other].clip, rows[other].facts), opts)
        && rows[other].clip == rows[id].clip;
      assert other == id;
    }
    OthersKeepObjects(id, SelectedClips(rows, opts, opts.after), rows, objects, rows', objects', stuck);
  }

  /** What an undisturbed run purges, in terms of one row: nothing else is marked, and nothing of this is left out. */
  lemma TargetExactly(id: nat, opts: Options, rows: Rows, objects: Objects, stuck: set<ObjectName>)
    requires Keyed(rows) && id in rows && !rows[id].purged
    ensures var r, all := rows[id], SelectedClips(rows, opts, opts.after);
            var target := TargetRows(all, rows, stuck);
            id in target && target[id] == r.(purged := target[id].purged)
            && (target[id].purged <==>
                  opts.after < id && (opts.until == 0 || id <= opts.until) && r.inScope && Passes(Candidate(r.clip, r.facts), opts)
                  && !r.refused && r.clip.key !in stuck)
            && (target[id].purged ==> r.clip.key !in TargetObjects(all, rows, objects, stuck))
  {
    var r, all := rows[id], SelectedClips(rows, opts, opts.after);
    var c := Candidate(r.clip, r.facts);
    PassesIsSelected(c, opts);
    assert r.clip in all <==> id in CandidateIds(rows, opts, opts.after) && Selected(c, opts) by {
      if r.clip in all {
        var other :| other in CandidateIds(rows, opts, opts.after) && Selected(Candidate(rows[other].clip, rows[other].facts), opts)
          && rows[other].clip == r.clip;
        assert other == id;
      }
    }
    ScanAgreesWithLock(r.facts);
  }

  // ----- a run after an interrupted one -----

  /** What a later scan from `lo` selects was selected before, and what it misses is settled below or purged. */
  lemma LaterScan(opts: Options, lo: nat, rows: Rows, objects: Objects, rows': Rows, objects': Objects, stuck: set<ObjectName>)
    requires Keyed(rows) && opts.after <= lo
    requires PartlyPurged(SelectedClips(rows, opts, opts.after), rows, objects, rows', objects', stuck)
    ensures SelectedClips(rows', opts.(after := lo), lo) <= SelectedClips(rows, opts, opts.after)
    ensures forall c :: c in SelectedClips(rows, opts, opts.after) && c.id > lo && c !in SelectedClips(rows', opts.(after := lo), lo) ==>
              c.id in rows' && rows'[c.id].purged
  {
    var all, later := SelectedClips(rows, opts, opts.after), SelectedClips(rows', opts.(after := lo), lo);
    forall c | c in later ensures c in all {
      var id :| id in CandidateIds(rows', opts.(after := lo), lo)
                && Selected(Candidate(rows'[id].clip, rows'[id].facts), opts.(after := lo)) && rows'[id].clip == c;
      assert rows'[id] == rows[id];
      assert id in CandidateIds(rows, opts, opts.after) && Selected(Candidate(rows[id].clip, rows[id].facts), opts);
    }
    forall c | c in all && c.id > lo && !rows'[c.id].purged ensures c in later {
      var id :| id in CandidateIds(rows, opts, opts.after) && Selected(Candidate(rows[id].clip, rows[id].facts), opts)
        && rows[id].clip == c;
      assert rows'[id] == rows[id];
      assert id in CandidateIds(rows', opts.(after := lo), lo)
             && Selected(Candidate(rows'[id].clip, rows'[id].facts), opts.(after := lo));
    }
  }

  /** Two runs, the second from a point up to which the first left nothing: together they left nothing. */
  lemma TwoRuns(opts: Options, lo: nat, rows: Rows, objects: Objects, rows1: Rows, objects1: Objects, rows2: Rows, objects2: Objects,
                stuck: set<ObjectName>)
    requires Keyed(rows) && Keyed(rows1) && opts.after <= lo
    requires var all, later := SelectedClips(rows, opts, opts.after), SelectedClips(rows1, opts.(after := lo), lo);
             PartlyPurged(all, rows, objects, rows1, objects1, stuck) && PartlyPurged(later, rows1, objects1, rows2, objects2, stuck)
             && NothingLeft(Below(all, lo), rows1, stuck) && NothingLeft(later, rows2, stuck)
    ensures var all := SelectedClips(rows, opts, opts.after);
            rows2 == TargetRows(all, rows, stuck) && objects2 == TargetObjects(all, rows, objects, stuck)
  {
    var all, later := SelectedClips(rows, opts, opts.after), SelectedClips(rows1, opts.(after := lo), lo);
    LaterScan(opts, lo, rows, objects, rows1, objects1, stuck);
    hide SelectedClips;
    PartlyMore(later, all, rows1, objects1, rows2, objects2, stuck);
    PartlyThen(all, rows, objects, rows1, objects1, rows2, objects2, stuck);
    StillNothing(Below(all, lo), later, rows1, objects1, rows2, objects2, stuck);
    forall c | c in all ensures !FateOf(c, rows2, stuck).Purged? {
      if c.id > lo && c !in later {
        assert rows1[c.id].purged && rows2[c.id].purged;
      }
    }
    NothingLeftIsTarget(all, rows, objects, rows2, objects2, stuck);
  }

  lemma SoundLater(opts: Options, lo: nat, rows: Rows, objects: Objects, rows': Rows, objects': Objects, stuck: set<ObjectName>)
    requires Keyed(rows) && opts.after <= lo && SoundClips(SelectedClips(rows, opts, opts.after), objects)
    requires PartlyPurged(SelectedClips(rows, opts, opts.after), rows, objects, rows', objects', stuck)
    ensures SoundClips(SelectedClips(rows', opts.(after := lo), lo), objects')
  {
    LaterScan(opts, lo, rows, objects, rows', objects', stuck);
    hide SelectedClips;
  }

  /**
   A run that ended in any way at any point, then another from its start or from its resume point. If the second is
   undisturbed, rows and objects are as if there had been no interruption; from the resume point that needs that nothing
   failed in the pages the first run settled (`whole`), which a caller knows if it counted no error.
   */
  method PurgeAfterInterruption(opts: Options, table: Rows, store: Objects, undeletable: set<ObjectName>, resume: bool,
                                firstFaults: nat -> bool, secondFaults: nat -> bool)
    returns (firstErrors: nat, ghost whole: bool, second: Ending, ghost clean: bool, rows: Rows, objects: Objects)
    requires Keyed(table) && opts.Valid() && opts.apply && SoundClips(SelectedClips(table, opts, opts.after), store)
    ensures firstErrors == 0 ==> whole
    ensures second.Finished? && clean && (resume ==> whole) ==>
              var all := SelectedClips(table, opts, opts.after);
              rows == TargetRows(all, table, undeletable) && objects == TargetObjects(all, table, store, undeletable)
    ensures Gone(table, store) ==> Gone(rows, objects)
    ensures var free := FreeToDelete(SelectedClips(table, opts, opts.after), undeletable);
            free && opts.limit == 0 && opts.maxBytes == 0 && (forall n :: !secondFaults(n)) ==> second.Finished? && clean
  {
    hide PartlyPurged, Accounts, NothingLeft, SelectedClips, CandidateIds, Below, SoundClips, SettledUpTo, Keyed, Gone;
    var p := new NasPurger(opts, table, store, undeletable, firstFaults);
    var first;
    first, whole := RunPass(p);
    firstErrors := p.errors;
    var lo := if resume then p.lastClipId else opts.after;
    SoundLater(opts, lo, table, store, p.rows, p.objects, undeletable);
    LaterScan(opts, lo, table, store, p.rows, p.objects, undeletable);
    var q := new NasPurger(opts.(after := lo), p.rows, p.objects, undeletable, secondFaults);
    second, clean := RunPass(q);
    rows, objects := q.rows, q.objects;
    if second.Finished? && clean && (resume ==> whole) {
      if !resume {
        NothingBelow(opts, table, p.rows, undeletable);
      } else if first.Finished? {
        LessIsNothing(SelectedClips(table, opts, opts.after), lo, p.rows, undeletable);
      }
      TwoRuns(opts, lo, table, store, p.rows, p.objects, q.rows, q.objects, undeletable);
    }
  }

  lemma NothingBelow(opts: Options, table: Rows, rows: Rows, stuck: set<ObjectName>)
    requires Keyed(table)
    ensures NothingLeft(Below(SelectedClips(table, opts, opts.after), opts.after), rows, stuck)
  {
    assert Below(SelectedClips(table, opts, opts.after), opts.after) == {};
  }

  lemma LessIsNothing(clips: set<Clip>, lo: nat, rows: Rows, stuck: set<ObjectName>)
    requires NothingLeft(clips, rows, stuck)
    ensures NothingLeft(Below(clips, lo), rows, stuck)
  {
  }
}
