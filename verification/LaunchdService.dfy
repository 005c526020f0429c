/** The service code over launchd: each method does its steps in order and is proved against what they come to. */
module LaunchdService {
  import opened Wrappers
  import opened LaunchdModel
  import opened LaunchdSafety

  class Launchd {
    var w: World

    constructor (start: World)
      ensures w == start
    {
      w := start;
    }

    method Print(d: Domain, l: Look) returns (probe: Probe)
      modifies this
      ensures w == Looked(old(w), l) && probe == Seen(old(w), d, l)
    {
      w := Drifted(w, l.drift);
      if !l.answer.Tells? {
        return ProbeFailed;
      }
      return if d in w.loaded then Loaded else Absent;
    }

    /** Boot the job out and wait, for a bounded time, until it is gone. */
    method RemoveJob(d: Domain, r: Remove) returns (ok: bool)
      modifies this
      ensures (w, ok) == Removed(old(w), d, r) && (ok ==> d !in w.loaded) && Quiet(old(w), w)
    {
      RemovedQuiet(w, d, r);
      w := Drifted(w, r.bootout.drift);
      var there := d in w.loaded;
      if there && (r.bootout.told || r.bootout.succeeds) {
        w := w.(leaving := w.leaving + {d});
      }
      if !r.bootout.succeeds {
        return false;
      }
      if !there {
        return true;
      }
      ghost var start := w;
      var i := 0;
      assert r.polls[0..] == r.polls;
      while i < |r.polls|
        invariant i <= |r.polls| && Polled(w, d, r.polls[i..]) == Polled(start, d, r.polls)
      {
        assert r.polls[i..][1..] == r.polls[i + 1..];
        var probe := Print(d, r.polls[i]);
        if probe.Absent? {
          return true;
        }
        if probe.ProbeFailed? && !r.polls[i].answer.TimesOut? {
          return false;
        }
        i := i + 1;
      }
      return false;
    }

    /** Running, with two heartbeats of this instance since the start, before the deadline. */
    method WaitReady(d: Domain, beats: seq<Beat>) returns (ready: bool)
      modifies this
      ensures (w, ready) == Waited(old(w), d, beats) && Quiet(old(w), w)
    {
      WaitedQuiet(w, d, beats);
      var i := 0;
      assert beats[0..] == beats;
      while i < |beats|
        invariant i <= |beats| && Waited(w, d, beats[i..]) == Waited(old(w), d, beats)
      {
        assert beats[i..][1..] == beats[i + 1..];
        var probe := Print(d, beats[i].look);
        if probe.Loaded? && beats[i].beats {
          return true;
        }
        i := i + 1;
      }
      return false;
    }

    method Bootstrap(d: Domain, l: Load) returns (ok: bool)
      requires w.plist.Some?
      modifies this
      ensures w == Bootstrapped(old(w), d, l) && ok == BootstrapOk(old(w), d, l)
    {
      ok := l.succeeds && d !in Drifted(w, l.drift).loaded;
      w := Bootstrapped(w, d, l);
    }

    method Kickstart(d: Domain, k: Kick) returns (ok: bool)
      modifies this
      ensures w == Drifted(old(w), k.drift) && ok == (k.succeeds && d in w.loaded)
    {
      w := Drifted(w, k.drift);
      return k.succeeds && d in w.loaded;
    }

    /** Load the plist on disk and see it run; otherwise remove it again as far as that succeeds. */
    method BootstrapRelay(d: Domain, b: Boots) returns (ok: bool)
      requires w.plist.Some?
      modifies this
      ensures (w, ok) == Booted(old(w), d, b) && w.plist == old(w).plist
      ensures Idle(old(w)) ==>
                Steady(w) && Lasting(w) && w.loaded.Keys <= {d}
                && (ok ==> w.loaded == map[d := w.plist.value] && w.coming == map[])
    {
      BootedKeeps(w, d, b);
      if Idle(w) {
        BootedSteady(w, d, b);
        SteadyLasts(Booted(w, d, b).0);
      }
      hide Drifted, Steady, Quiet, Lasting;
      ok := Bootstrap(d, b.load);
      if !ok {
        var probe := Print(d, b.look);
        if probe.Loaded? {
          var _ := RemoveJob(d, b.cleanup);
        }
        return;
      }
      ok := Kickstart(d, b.kick);
      if !ok {
        var _ := RemoveJob(d, b.cleanup);
        return;
      }
      ok := WaitReady(d, b.beats);
      if !ok {
        var _ := RemoveJob(d, b.cleanup);
      }
    }

    method WritePlist(content: Option<Plist>, ok: bool)
      modifies this
      ensures w == Written(old(w), content, ok)
    {
      if ok {
        w := w.(plist := content, calm := w.calm && Idle(w));
      }
    }

    /** Put the prior plist back and load it. */
    method RestorePrior(prior: Plist, d: Domain, r: Restores)
      modifies this
      ensures w == Restored(old(w), prior, d, r)
      ensures Steady(old(w)) && Restorable(old(w), prior, d) ==>
                Steady(w) && Lasting(w) && w.loaded.Keys <= {d} && (w.plist == Some(prior) || w.plist == old(w).plist)
    {
      if Steady(w) && Restorable(w, prior, d) {
        RestoredSteady(w, prior, d, r);
        SteadyLasts(Restored(w, prior, d, r));
      }
      WritePlist(Some(prior), r.write);
      if r.write {
        var _ := BootstrapRelay(d, r.boots);
      }
    }

    method RecoverPrior(prior: Plist, d: Domain, r: Recovers)
      modifies this
      ensures w == Recovered(old(w), prior, d, r)
      ensures Steady(old(w)) && w.calm ==> Steady(w)
      ensures Steady(old(w)) && old(w).loaded.Keys <= {d} && old(w).coming == map[] ==> w.calm == old(w).calm
    {
      if Steady(w) {
        RecoveredCalm(w, prior, d, r);
      }
      hide Drifted, Steady, Quiet, Restored, Waited;
      var probe := Print(d, r.first);
      match probe {
        case ProbeFailed => return;
        case Absent => RestorePrior(prior, d, r.restores);
        case Loaded =>
          var ok := Kickstart(d, r.kick);
          if ok {
            var _ := WaitReady(d, r.beats);
            return;
          }
          probe := Print(d, r.second);
          if probe.Absent? {
            RestorePrior(prior, d, r.restores);
          }
      }
    }

    method LoadedDomains(l: Looks) returns (found: Option<set<Domain>>)
      modifies this
      ensures w == LookedBoth(old(w), l) && found == Domains(old(w), l)
    {
      hide Drifted;
      var gui := Print(Gui, l.gui);
      if gui.ProbeFailed? {
        return None;
      }
      var user := Print(User, l.user);
      if user.ProbeFailed? {
        return None;
      }
      return Some((if gui.Loaded? then {Gui} else {}) + (if user.Loaded? then {User} else {}));
    }

    /**
     `installLaunchdInDomain` from the staged candidate on. On every exit at most one relay is loaded, of the plist on
     disk, for good, provided no load could still happen when the plist was written; without late loads it always is.
     */
    method Install(d: Domain, candidate: Plist, o: InstallRun) returns (end: InstallEnd)
      requires Steady(w)
      modifies this
      ensures (w, end) == InstallOutcome(old(w), d, candidate, o)
      ensures w.calm ==> Lasting(w) && (end.Installed? ==> w.plist == Some(candidate) && w.loaded == map[d := candidate])
      ensures old(w).calm && old(w).coming == map[] && !o.boots.load.loading.Later? ==> w.calm
      ensures w.plist == old(w).plist || w.plist == Some(candidate)
    {
      InstallSafe(w, d, candidate, o);
      if w.calm && w.coming == map[] && !o.boots.load.loading.Later? {
        InstallCalm(w, d, candidate, o);
      }
      hide Drifted, Steady, Quiet, Lasting, Removed, Recovered, Replaced, LookedBoth, Domains;
      LooksKeep(w, o.domains);
      if !o.ready {
        return Refused;
      }
      var prior := w.plist;
      var found := LoadedDomains(o.domains);
      if found.None? || |found.value| > 1 || (d.User? && !o.reachable) {
        return Refused;
      }
      if found.value == {} {
        end := Replace(d, candidate, prior, false, o);
        return;
      }
      if found.value != {d} || prior.None? || !prior.value.owned {
        return Refused;
      }
      var removed := RemoveJob(d, o.remove);
      if !removed {
        RecoverPrior(prior.value, d, o.recover);
        return Failed;
      }
      end := Replace(d, candidate, prior, true, o);
    }

    /** With nothing loaded: run lock, plist, bootstrap, rollback. */
    method Replace(d: Domain, candidate: Plist, prior: Option<Plist>, stopped: bool, o: InstallRun) returns (end: InstallEnd)
      requires stopped ==> prior.Some?
      modifies this
      ensures (w, end) == Replaced(old(w), d, candidate, prior, stopped, o)
    {
      hide Drifted, Steady, Quiet, Booted, Restored, LookedBoth, Domains;
      if !o.lock || !o.write {
        if stopped {
          RestorePrior(prior.value, d, o.restores);
          return Failed;
        }
        return Refused;
      }
      WritePlist(Some(candidate), true);
      var ok := BootstrapRelay(d, o.boots);
      if ok {
        return Installed;
      }
      var left := LoadedDomains(o.after);
      if left == Some({}) {
        RollBack(d, prior, stopped, o.rollback);
      }
      return Failed;
    }

    method RollBack(d: Domain, prior: Option<Plist>, stopped: bool, r: Rollback)
      requires stopped ==> prior.Some?
      modifies this
      ensures w == RolledBack(old(w), d, prior, stopped, r)
      ensures Steady(old(w)) && Idle(old(w)) ==> Lasting(w)
    {
      if Steady(w) && Idle(w) {
        RolledBackSteady(w, d, prior, stopped, r);
        SteadyLasts(RolledBack(w, d, prior, stopped, r));
      }
      WritePlist(prior, r.undo);
      if r.undo && stopped {
        var _ := BootstrapRelay(d, r.boots);
      }
    }

    /**
     `completeLaunchdHandoff`: replace a legacy job from outside. `rollback` is the definition saved when the handoff was
     scheduled. Late loads apart it is safe exactly if no relay is loaded in the other domain (LaunchdSafety.HandoffIsSafe).
     */
    method Handoff(d: Domain, candidate: Plist, rollback: Plist, o: HandoffRun) returns (ok: bool)
      requires Steady(w)
      modifies this
      ensures (w, ok) == HandoffOutcome(old(w), d, candidate, rollback, o)
      ensures w.calm ==> Lasting(w) && (ok ==> w.plist == Some(candidate) && w.loaded == map[d := candidate])
      ensures old(w).calm && old(w).coming == map[] && old(w).loaded.Keys <= {d} && !o.boots.load.loading.Later? ==> w.calm
    {
      HandoffSafe(w, d, candidate, rollback, o);
      if HandoffOutcome(w, d, candidate, rollback, o).0.calm {
        SteadyLasts(HandoffOutcome(w, d, candidate, rollback, o).0);
      }
      hide Drifted, Steady, Quiet, Lasting, Removed, Recovered, Booted, Restored, LookedBoth, Domains;
      var removed := RemoveJob(d, o.remove);
      if !removed {
        RecoverPrior(rollback, d, o.recover);
        return false;
      }
      if !o.lock || !o.write {
        RestorePrior(rollback, d, o.restores);
        return false;
      }
      WritePlist(Some(candidate), true);
      ok := BootstrapRelay(d, o.boots);
      if !ok {
        var left := LoadedDomains(o.after);
        if left == Some({}) {
          RestorePrior(rollback, d, o.again);
        }
      }
    }

    method Clear(d: Domain, look: Look, r: Remove) returns (ok: bool)
      modifies this
      ensures (w, ok) == Cleared(old(w), d, look, r)
    {
      var probe := Print(d, look);
      match probe {
        case ProbeFailed => return false;
        case Absent => return true;
        case Loaded => ok := RemoveJob(d, r);
      }
    }

    /** `uninstallLaunchd`: the plist goes only after every relay has, and its process too. */
    method Uninstall(o: UninstallRun) returns (ok: bool)
      requires Steady(w)
      modifies this
      ensures (w, ok) == UninstallOutcome(old(w), o)
      ensures if ok then w.plist == None else w.plist == old(w).plist
      ensures w.calm ==> Lasting(w) && (ok ==> Idle(w))
      ensures old(w).coming == map[] ==> w.calm == old(w).calm
    {
      UninstallSafe(w, o);
      UninstallKeeps(w, o);
      if UninstallOutcome(w, o).0.calm {
        SteadyLasts(UninstallOutcome(w, o).0);
      }
      hide Drifted, Steady, Quiet, Lasting, Cleared, LookedBoth, Domains;
      ok := Clear(Gui, o.gui, o.guiRemove);
      if !ok {
        return;
      }
      ok := Clear(User, o.user, o.userRemove);
      if !ok {
        return;
      }
      var left := LoadedDomains(o.after);
      if left != Some({}) || !o.lock {
        return false;
      }
      WritePlist(None, o.write);
      ok := o.write;
    }
  }

  lemma LooksKeep(w: World, l: Looks)
    ensures LookedBoth(w, l).plist == w.plist
  {
    LooksQuiet(w, l);
  }

  lemma UninstallKeeps(w: World, o: UninstallRun)
    requires Steady(w)
    ensures !UninstallOutcome(w, o).1 ==> UninstallOutcome(w, o).0.plist == w.plist
  {
    UninstallSafe(w, o);
    hide UninstallOutcome;
  }
}
