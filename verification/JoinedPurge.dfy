/**
 The single-clip purge of joined sources: classification, the once-per-run check of each joined media
 object, and the transaction that locks, marks, deletes and commits one clip.
 */
module JoinedPurge {
  import opened Wrappers

  datatype JoinedClip = JoinedClip(id: nat, size: nat, sha: nat, bucket: nat, key: nat)

  /** `finality`, `eligible` and the bucket facts come from SQL; `published` includes key, size and digest of the media. */
  datatype JoinedCandidate = JoinedCandidate(clip: JoinedClip, mediaId: nat, included: bool, held: bool, finality: bool, published: bool,
                                             eligible: bool, managed: bool, identified: bool, nasVerified: bool)

  datatype Rule = NotIncluded | HourHeld | HourNotFinal | MediaUnpublished | Ineligible | NotManaged | IdentityIncomplete | NasUnverified

  function Classify(c: JoinedCandidate, requireNas: bool): Option<Rule> {
    if !c.included then Some(NotIncluded)
    else if c.held then Some(HourHeld)
    else if !c.finality then Some(HourNotFinal)
    else if !c.published then Some(MediaUnpublished)
    else if !c.eligible then Some(Ineligible)
    else if !c.managed then Some(NotManaged)
    else if !c.identified then Some(IdentityIncomplete)
    else if requireNas && !c.nasVerified then Some(NasUnverified)
    else None
  }

  /** `eligible` is what the retention trigger decides for the row now. */
  datatype JoinedRow = JoinedRow(clip: JoinedClip, nasVerified: bool, eligible: bool, purged: bool)

  type Table = map<nat, JoinedRow>
  type Blobs = set<nat>

  datatype Refusal = ClipMissing | AlreadyPurged | IdentityChanged | NasGone | TriggerRefused

  /** The locked checks, in order. */
  function Refused(c: JoinedClip, rows: Table, requireNas: bool): Option<Refusal> {
    if c.id !in rows then Some(ClipMissing)
    else if rows[c.id].purged then Some(AlreadyPurged)
    else if rows[c.id].clip != c then Some(IdentityChanged)
    else if requireNas && !rows[c.id].nasVerified then Some(NasGone)
    else if !rows[c.id].eligible then Some(TriggerRefused)
    else None
  }

  datatype PurgeEnd = Purged | Skipped(why: Refusal) | Errored | Died

  /** Where a purge breaks off, if it does; a delete or a commit may have happened although it was not reported. */
  datatype Trouble = Untroubled | BeforeLock | AtMark | AtDelete(gone: bool, dies: bool) | AtCommit(applied: bool, dies: bool)

  /** What the store says of a media object: whether the HEAD and the read succeed, and agree with what was published. */
  datatype Seen = Seen(headed: bool, size: bool, read: bool, sha: bool)

  datatype Media = Verified | HeadFailed | SizeMismatch | ShaUnread

  datatype Check = Known(media: Media) | ShaMismatch

  predicate NoneLeftBehind(rows: Table, blobs: Blobs) {
    forall id :: id in rows && rows[id].purged ==> rows[id].clip.key !in blobs
  }

  /** How far one clip's purge got: not at all, object deleted, or row committed as well. */
  predicate PartOf(c: JoinedClip, rows: Table, blobs: Blobs, rows': Table, blobs': Blobs) {
    (rows' == rows && (blobs' == blobs || blobs' == blobs - {c.key}))
    || (c.id in rows && rows' == rows[c.id := rows[c.id].(purged := true)] && blobs' == blobs - {c.key})
  }

  /** At every point where it may break off, a committed purge has no object left, and a second attempt completes it. */
  lemma RerunCompletes(c: JoinedClip, requireNas: bool, rows: Table, blobs: Blobs, rows': Table, blobs': Blobs)
    requires Refused(c, rows, requireNas).None? && PartOf(c, rows, blobs, rows', blobs')
    ensures NoneLeftBehind(rows, blobs) ==> NoneLeftBehind(rows', blobs')
    ensures Refused(c, rows', requireNas) == if rows' == rows then None else Some(AlreadyPurged)
    ensures rows'[c.id := rows'[c.id].(purged := true)] == rows[c.id := rows[c.id].(purged := true)] && blobs' - {c.key} == blobs - {c.key}
  {
  }

  ghost function Settled(mediaOk: map<nat, Check>): set<nat> {
    set m | m in mediaOk && mediaOk[m].Known?
  }

  lemma SettledMore(mediaOk: map<nat, Check>, id: nat, check: Check)
    requires id !in mediaOk
    ensures |Settled(mediaOk[id := check])| == |Settled(mediaOk)| + if check.Known? then 1 else 0
    ensures |mediaOk[id := check]| == |mediaOk| + 1
  {
    if check.Known? {
      assert Settled(mediaOk[id := check]) == Settled(mediaOk) + {id};
    } else {
      assert Settled(mediaOk[id := check]) == Settled(mediaOk);
    }
    assert mediaOk[id := check].Keys == mediaOk.Keys + {id};
  }

  class JoinedPurger {
    const requireNas: bool
    const shaEvery: nat
    const maxErrors: nat
    var rows: Table
    var blobs: Blobs
    var mediaOk: map<nat, Check>
    var mediaHeads: nat
    var shaChecks: nat
    var distinct: nat
    var errors: nat

    constructor (table: Table, store: Blobs, nas: bool, every: nat, most: nat)
      ensures rows == table && blobs == store && requireNas == nas && shaEvery == every && maxErrors == most && Memo() && errors == 0
    {
      requireNas, shaEvery, maxErrors, rows, blobs := nas, every, most, table, store;
      mediaOk, mediaHeads, shaChecks, distinct, errors := map[], 0, 0, 0, 0;
    }

    /** One HEAD per media object ever asked about, at most one digest each, and the digests are every `shaEvery`th. */
    ghost predicate Memo()
      reads this
    {
      mediaHeads == |mediaOk| && shaChecks <= mediaHeads
      && distinct == |Settled(mediaOk)|
    }

    /**
     The verdict on a media object, found out once per run. Every `shaEvery`th object that got one is read in full, and a
     digest that differs stops the run.
     */
    method VerifyMedia(mediaId: nat, seen: Seen) returns (check: Check, stop: bool)
      requires Memo()
      modifies this`mediaOk, this`mediaHeads, this`shaChecks, this`distinct
      ensures Memo() && mediaId in mediaOk && check == mediaOk[mediaId]
      ensures mediaId in old(mediaOk) ==> mediaOk == old(mediaOk) && mediaHeads == old(mediaHeads)
      ensures mediaId !in old(mediaOk) ==> mediaOk == old(mediaOk)[mediaId := check] && mediaHeads == old(mediaHeads) + 1
      ensures stop <==> mediaId !in old(mediaOk) && check.ShaMismatch?
      ensures mediaId !in old(mediaOk) ==>
                var sampled := shaEvery > 0 && old(distinct) % shaEvery == 0;
                (check == Known(Verified) <==> seen.headed && seen.size && (sampled ==> seen.read && seen.sha))
                && (check == Known(HeadFailed) <==> !seen.headed)
                && (check == Known(SizeMismatch) <==> seen.headed && !seen.size)
                && (check == Known(ShaUnread) <==> seen.headed && seen.size && sampled && !seen.read)
    {
      if mediaId in mediaOk {
        return mediaOk[mediaId], false;
      }
      mediaHeads := mediaHeads + 1;
      var verdict := Verified;
      if !seen.headed {
        verdict := HeadFailed;
      } else if !seen.size {
        verdict := SizeMismatch;
      }
      hide Settled;
      if verdict.Verified? && shaEvery > 0 && distinct % shaEvery == 0 {
        shaChecks := shaChecks + 1;
        if !seen.read {
          verdict := ShaUnread;
        } else if !seen.sha {
          SettledMore(mediaOk, mediaId, ShaMismatch);
          mediaOk := mediaOk[mediaId := ShaMismatch];
          return ShaMismatch, true;
        }
      }
      distinct := distinct + 1;
      SettledMore(mediaOk, mediaId, Known(verdict));
      mediaOk := mediaOk[mediaId := Known(verdict)];
      return Known(verdict), false;
    }

    /**
     The single write path for one clip. It purges exactly a present, unmarked, unchanged, eligible row with its copy where
     one is required, if nothing breaks off; otherwise the first check that fails is reported and nothing has changed.
     */
    method PurgeClip(c: JoinedClip, trouble: Trouble) returns (end: PurgeEnd)
      modifies this`rows, this`blobs
      ensures end.Purged? <==>
                trouble.Untroubled? && c.id in old(rows)
                && var r := old(rows)[c.id]; !r.purged && r.clip == c && (requireNas ==> r.nasVerified) && r.eligible
      ensures end == Skipped(ClipMissing) <==> !trouble.BeforeLock? && c.id !in old(rows)
      ensures !trouble.BeforeLock? && c.id in old(rows) ==>
                var r := old(rows)[c.id];
                (end == Skipped(AlreadyPurged) <==> r.purged)
                && (end == Skipped(IdentityChanged) <==> !r.purged && r.clip != c)
                && (end == Skipped(NasGone) <==> !r.purged && r.clip == c && requireNas && !r.nasVerified)
                && (end == Skipped(TriggerRefused) <==> !r.purged && r.clip == c && (requireNas ==> r.nasVerified) && !r.eligible)
      ensures rows == (if end.Purged? || (trouble.AtCommit? && trouble.applied && !end.Skipped?)
                       then old(rows)[c.id := old(rows)[c.id].(purged := true)] else old(rows))
      ensures blobs == (if end.Purged? || (!end.Skipped? && (trouble.AtCommit? || (trouble.AtDelete? && trouble.gone)))
                        then old(blobs) - {c.key} else old(blobs))
      ensures !end.Purged? && !end.Skipped? ==>
                (end.Died? <==> (trouble.AtDelete? && trouble.dies) || (trouble.AtCommit? && trouble.dies))
                && (trouble.AtDelete? || trouble.AtCommit? ==> Refused(c, old(rows), requireNas).None?)
    {
      if trouble.BeforeLock? {
        return Errored;
      }
      if c.id !in rows {
        return Skipped(ClipMissing);
      }
      if rows[c.id].purged {
        return Skipped(AlreadyPurged);
      }
      if rows[c.id].clip != c {
        return Skipped(IdentityChanged);
      }
      if requireNas && !rows[c.id].nasVerified {
        return Skipped(NasGone);
      }
      if !rows[c.id].eligible {
        return Skipped(TriggerRefused);
      }
      if trouble.AtMark? {
        return Errored;
      }
      var tx := rows[c.id := rows[c.id].(purged := true)];
      if trouble.AtDelete? && !trouble.gone {
        return if trouble.dies then Died else Errored;
      }
      blobs := blobs - {c.key};
      if trouble.AtDelete? || (trouble.AtCommit? && !trouble.applied) {
        return if trouble.dies then Died else Errored;
      }
      rows := tx;
      if trouble.AtCommit? {
        return if trouble.dies then Died else Errored;
      }
      return Purged;
    }

    /**
     One candidate: rules, media verdict, source HEAD, purge. A clip is purged exactly if every rule holds, the media it was
     joined into was found good in this run, and a source that is still there has the recorded size; the run stops at a
     digest mismatch and at `maxErrors` errors.
     */
    method Process(c: JoinedCandidate, apply: bool, seen: Seen, headed: bool, sourceSize: nat, trouble: Trouble)
      returns (purged: bool, stop: bool)
      requires Memo()
      modifies this
      ensures Memo()
      ensures purged <==>
                apply && c.included && !c.held && c.finality && c.published && c.eligible && c.managed && c.identified
                && (requireNas ==> c.nasVerified) && c.mediaId in mediaOk && mediaOk[c.mediaId] == Known(Verified)
                && headed && (c.clip.key in old(blobs) ==> sourceSize == c.clip.size)
                && trouble.Untroubled? && Refused(c.clip, old(rows), requireNas).None?
      ensures purged ==>
                rows == old(rows)[c.clip.id := old(rows)[c.clip.id].(purged := true)] && blobs == old(blobs) - {c.clip.key}
      ensures (rows == old(rows) && blobs == old(blobs))
              || (Refused(c.clip, old(rows), requireNas).None? && PartOf(c.clip, old(rows), old(blobs), rows, blobs))
      ensures c.mediaId in mediaOk && mediaOk[c.mediaId].ShaMismatch? && c.mediaId !in old(mediaOk) ==> stop && !purged && rows == old(rows)
      ensures errors <= old(errors) + 1 && (errors > old(errors) ==> !purged && (stop <==> errors >= maxErrors))
    {
      purged, stop := false, false;
      if Classify(c, requireNas).Some? {
        return;
      }
      var check;
      check, stop := VerifyMedia(c.mediaId, seen);
      if stop || check != Known(Verified) {
        return;
      }
      if !headed {
        errors := errors + 1;
        return false, errors >= maxErrors;
      }
      if c.clip.key in blobs && sourceSize != c.clip.size {
        return;
      }
      if !apply {
        return;
      }
      var end := PurgeClip(c.clip, trouble);
      purged, stop := end.Purged?, end.Died?;
      if end.Errored? {
        errors := errors + 1;
        stop := errors >= maxErrors;
      }
    }
  }
}
