/**
 Versioned yt-dlp releases: one directory per digest, a `current` and a `previous` link. Every step has an outcome
 given as an argument: it may fail, or the process may die before or after it. Removing a directory is one step.
 */
module YtdlpDist {
  import opened Wrappers

  type Sum = nat

  /** An unpacked tree: its marker file, and whether it has one entrypoint beside its runtime. */
  datatype Tree = Tree(marker: Option<Sum>, runnable: bool)

  datatype Dist = Dist(releases: map<Sum, Tree>, staging: map<nat, Tree>, current: Option<Sum>, previous: Option<Sum>)

  predicate ReleaseReady(d: Dist, sum: Sum) {
    sum in d.releases && d.releases[sum].marker == Some(sum) && d.releases[sum].runnable
  }

  predicate CurrentReady(d: Dist) { d.current.Some? && ReleaseReady(d, d.current.value) }

  /** A ready current release is never lost, nor is a ready release that a link keeps pointing at. */
  ghost predicate KeepsReady(before: Dist, after: Dist) {
    (CurrentReady(before) ==> CurrentReady(after))
    && (forall s: Sum :: ReleaseReady(before, s) && (after.current == Some(s) || after.previous == Some(s)) ==> ReleaseReady(after, s))
  }

  /** What the relay may run at any moment: an old release that was ready, or the new one, complete. */
  predicate Pointing(before: Dist, after: Dist, sum: Sum) {
    (after.current == before.current || (after.current == Some(sum) && ReleaseReady(after, sum)))
    && (after.previous == before.previous || (before.current.Some? && before.current != Some(sum) && after.previous == before.current))
  }

  datatype Step = Ok | Failed | Died

  datatype InstallEnd = UpToDate | Updated | NotInstalled | Crashed

  /** The steps of an update that touch the disk or the network. */
  datatype At = MakeRoot | Download | MakeStaging | Extract | WriteMarker | RemoveOld | Commit | LinkPrevious | LinkCurrent

  datatype Outcome = Goes | Fails | DiesFirst | DiesAfter

  /** The downloaded artifact: it unpacks within its limits, has one entrypoint beside its runtime, and starts. */
  datatype Build = Build(unpacks: bool, runnable: bool, starts: bool)
  {
    predicate Good() { unpacks && runnable && starts }
  }

  /** Every step of unpacking goes well. */
  predicate Unpacks(build: Build, at: At -> Outcome) {
    build.unpacks && build.runnable && build.starts
    && at(MakeStaging).Goes? && at(Extract).Goes? && at(WriteMarker).Goes? && at(RemoveOld).Goes? && at(Commit).Goes?
  }

  class DistRoot {
    var d: Dist

    constructor (start: Dist)
      ensures d == start
    {
      d := start;
    }

    /** An atomic rename over the old link. */
    method Link(previous: bool, target: Sum, o: Outcome) returns (step: Step)
      modifies this
      ensures var linked := if previous then old(d).(previous := Some(target)) else old(d).(current := Some(target));
              d == if o.Goes? || o.DiesAfter? then linked else old(d)
      ensures step == if o.Goes? then Ok else if o.Fails? then Failed else Died
    {
      match o {
        case Fails => return Failed;
        case DiesFirst => return Died;
        case _ =>
      }
      d := if previous then d.(previous := Some(target)) else d.(current := Some(target));
      return if o.Goes? then Ok else Died;
    }

    /** Preserve the old release, then switch to the new one. */
    method Activate(sum: Sum, at: At -> Outcome) returns (step: Step)
      requires ReleaseReady(d, sum)
      modifies this
      ensures KeepsReady(old(d), d) && Pointing(old(d), d, sum) && d.releases == old(d).releases && d.staging == old(d).staging
      ensures step.Ok? <==> at(LinkCurrent).Goes? && (old(d).current.None? || old(d).current == Some(sum) || at(LinkPrevious).Goes?)
      ensures step.Ok? ==>
                d == old(d).(current := Some(sum),
                             previous := if old(d).current.Some? && old(d).current != Some(sum) then old(d).current else old(d).previous)
    {
      if d.current.Some? && d.current.value != sum {
        step := Link(true, d.current.value, at(LinkPrevious));
        if !step.Ok? {
          return;
        }
      }
      step := Link(false, sum, at(LinkCurrent));
    }

    /**
     Unpack beside the final name, prove it starts, mark it, and only then put it in place of an incomplete release.
     `nonce` names the staging directory. A build that does not start is never put in place.
     */
    method Unpack(sum: Sum, nonce: nat, build: Build, at: At -> Outcome) returns (step: Step)
      requires !ReleaseReady(d, sum) && nonce !in d.staging
      modifies this
      ensures d.current == old(d).current && d.previous == old(d).previous
      ensures forall s :: s != sum ==> (s in d.releases <==> s in old(d).releases) && (s in d.releases ==>
                d.releases[s] == old(d).releases[s])
      ensures sum in d.releases ==> ReleaseReady(d, sum) || (sum in old(d).releases && d.releases[sum] == old(d).releases[sum])
      ensures ReleaseReady(d, sum) ==> build.Good()
      ensures step.Ok? <==> Unpacks(build, at)
      ensures step.Ok? ==> ReleaseReady(d, sum)
      ensures !step.Died? ==> d.staging == old(d).staging
      ensures forall n :: n in d.staging && n != nonce ==> n in old(d).staging
    {
      if at(MakeStaging).Fails? {
        return Failed;
      }
      if at(MakeStaging).DiesFirst? {
        return Died;
      }
      d := d.(staging := d.staging[nonce := Tree(None, false)]);
      if at(MakeStaging).DiesAfter? || at(Extract).DiesFirst? {
        return Died;
      }
      if at(Extract).Fails? || !build.unpacks {
        d := d.(staging := d.staging - {nonce});
        return Failed;
      }
      d := d.(staging := d.staging[nonce := Tree(None, build.runnable)]);
      if at(Extract).DiesAfter? {
        return Died;
      }
      if !build.runnable || !build.starts {
        d := d.(staging := d.staging - {nonce});
        return Failed;
      }
      if at(WriteMarker).DiesFirst? {
        return Died;
      }
      if at(WriteMarker).Fails? {
        d := d.(staging := d.staging - {nonce});
        return Failed;
      }
      d := d.(staging := d.staging[nonce := Tree(Some(sum), true)]);
      if at(WriteMarker).DiesAfter? || at(RemoveOld).DiesFirst? {
        return Died;
      }
      if at(RemoveOld).Fails? {
        d := d.(staging := d.staging - {nonce});
        return Failed;
      }
      d := d.(releases := d.releases - {sum});
      if at(RemoveOld).DiesAfter? || at(Commit).DiesFirst? {
        return Died;
      }
      if at(Commit).Fails? {
        d := d.(staging := d.staging - {nonce});
        return Failed;
      }
      d := d.(releases := d.releases[sum := d.staging[nonce]], staging := d.staging - {nonce});
      return if at(Commit).DiesAfter? then Died else Ok;
    }

    /** Remove what neither link names. Staging directories go only when they are stale. A failed removal is skipped. */
    method Prune(stale: set<nat>, readable: bool, removable: Sum -> bool)
      modifies this
      ensures d.current == old(d).current && d.previous == old(d).previous
      ensures forall s :: s in d.releases ==> s in old(d).releases && d.releases[s] == old(d).releases[s]
      ensures forall s :: s in old(d).releases && (d.current == Some(s) || d.previous == Some(s)) ==> s in d.releases
      ensures forall s :: s in d.releases && readable && removable(s) ==> d.current == Some(s) || d.previous == Some(s)
      ensures d.staging == if readable then old(d).staging - stale else old(d).staging
    {
      var keep := (if d.current.Some? then {d.current.value} else {}) + (if d.previous.Some? then {d.previous.value} else {});
      ghost var before := d;
      if !readable {
        return;
      }
      var names := d.releases.Keys;
      while names != {}
        invariant names <= before.releases.Keys && d.current == before.current && d.previous == before.previous
          && d.staging == before.staging
        invariant forall s :: s in d.releases ==> s in before.releases && d.releases[s] == before.releases[s]
        invariant forall s :: s in before.releases && (s in names || s in keep) ==> s in d.releases
        invariant forall s :: s in d.releases && removable(s) ==> s in names || s in keep
        decreases |names|
      {
        var s :| s in names;
        names := names - {s};
        if s !in keep && removable(s) {
          d := d.(releases := d.releases - {s});
        }
      }
      d := d.(staging := d.staging - stale);
    }

    /**
     `installYTDLPDist`. At every step and in every crash a ready current release stays ready and each link names
     what it did, or what this update may put there; afterwards the update is current, the release it replaced is
     kept as previous, and both survive pruning.
     */
    method Install(sum: Sum, nonce: nat, build: Build, at: At -> Outcome, stale: set<nat>, readable: bool, removable: Sum -> bool)
      returns (end: InstallEnd)
      requires nonce !in d.staging
      modifies this
      ensures KeepsReady(old(d), d) && Pointing(old(d), d, sum)
      ensures end.UpToDate? <==> old(d).current == Some(sum) && ReleaseReady(old(d), sum)
      ensures end.UpToDate? ==> d == old(d)
      ensures end.Updated? <==>
                !(old(d).current == Some(sum) && ReleaseReady(old(d), sum)) && at(MakeRoot).Goes?
                && (ReleaseReady(old(d), sum) || (at(Download).Goes? && Unpacks(build, at)))
                && (old(d).current.None? || old(d).current == Some(sum) || at(LinkPrevious).Goes?) && at(LinkCurrent).Goes?
      ensures end.UpToDate? || end.Updated? ==> d.current == Some(sum) && CurrentReady(d)
      ensures !build.Good() && !ReleaseReady(old(d), sum) ==>
                !ReleaseReady(d, sum) && d.current == old(d).current && d.previous == old(d).previous && !end.Updated?
      ensures end.Updated? && old(d).current.Some? && old(d).current != Some(sum) ==> d.previous == old(d).current
      ensures end.Updated? && (old(d).current.None? || old(d).current == Some(sum)) ==> d.previous == old(d).previous
      ensures end.Updated? && d.previous.Some? && d.previous != Some(sum) && d.previous.value in old(d).releases ==>
                d.previous.value in d.releases && d.releases[d.previous.value] == old(d).releases[d.previous.value]
    {
      if d.current == Some(sum) && ReleaseReady(d, sum) {
        return UpToDate;
      }
      if !at(MakeRoot).Goes? {
        return if at(MakeRoot).Fails? then NotInstalled else Crashed;
      }
      if !ReleaseReady(d, sum) {
        if !at(Download).Goes? {
          return if at(Download).Fails? then NotInstalled else Crashed;
        }
        var unpacked := Unpack(sum, nonce, build, at);
        if !unpacked.Ok? {
          return if unpacked.Failed? then NotInstalled else Crashed;
        }
      }
      var activated := Activate(sum, at);
      if !activated.Ok? {
        return if activated.Failed? then NotInstalled else Crashed;
      }
      Prune(stale, readable, removable);
      return Updated;
    }
  }
}
