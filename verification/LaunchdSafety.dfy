/** When a relay's replacement keeps at most one relay, of the plist on disk, whatever fails and however late. */
module LaunchdSafety {
  import opened Wrappers
  import opened LaunchdModel

  /** Whatever is loaded or may still be is at most one relay, of the plist on disk. */
  predicate Steady(w: World) {
    (forall d, e :: (d in w.loaded || d in w.coming) && (e in w.loaded || e in w.coming) ==> d == e)
    && (forall d :: d in w.loaded ==> w.plist == Some(w.loaded[d]))
    && (forall d :: d in w.coming ==> w.plist == Some(w.coming[d]))
  }

  /** From one moment to a later one in which nothing was loaded or written. */
  predicate Quiet(before: World, after: World) {
    after.plist == before.plist && after.calm == before.calm
    && (forall d :: d in after.loaded ==>
          (d in before.loaded && after.loaded[d] == before.loaded[d]) || (d in before.coming && after.loaded[d] == before.coming[d]))
    && (forall d :: d in after.coming ==> d in before.coming && after.coming[d] == before.coming[d])
  }

  lemma QuietSteady(before: World, after: World)
    requires Quiet(before, after) && Steady(before)
    ensures Steady(after)
  {
  }

  lemma QuietThen(a: World, b: World, c: World)
    requires Quiet(a, b) && Quiet(b, c)
    ensures Quiet(a, c)
  {
  }

  lemma DriftQuiet(w: World, t: Drift)
    ensures Quiet(w, Drifted(w, t))
  {
  }

  lemma SteadyLasts(w: World)
    requires Steady(w)
    ensures Lasting(w)
  {
    forall t ensures Consistent(Drifted(w, t)) {
      DriftQuiet(w, t);
      QuietSteady(w, Drifted(w, t));
    }
  }

  lemma {:induction false} PolledQuiet(w: World, d: Domain, polls: seq<Look>)
    ensures Quiet(w, Polled(w, d, polls).0)
    decreases |polls|
  {
    hide Quiet, Drifted;
    QuietSelf(w);
    if polls != [] {
      var v := Looked(w, polls[0]);
      DriftQuiet(w, polls[0].drift);
      PolledQuiet(v, d, polls[1..]);
      QuietThen(w, v, Polled(v, d, polls[1..]).0);
    }
  }

  lemma QuietSelf(w: World)
    ensures Quiet(w, w)
  {
  }

  lemma RemovedQuiet(w: World, d: Domain, r: Remove)
    ensures Quiet(w, Removed(w, d, r).0)
  {
    DriftQuiet(w, r.bootout.drift);
    var v := BootedOut(w, d, r.bootout);
    assert Quiet(w, v);
    PolledQuiet(v, d, r.polls);
    QuietThen(w, v, Polled(v, d, r.polls).0);
  }

  lemma {:induction false} WaitedQuiet(w: World, d: Domain, beats: seq<Beat>)
    ensures Quiet(w, Waited(w, d, beats).0)
    ensures d in w.loaded && d !in w.leaving ==> d in Waited(w, d, beats).0.loaded && Waited(w, d, beats).0.loaded[d] == w.loaded[d]
    decreases |beats|
  {
    QuietSelf(w);
    if beats != [] {
      var v := Looked(w, beats[0].look);
      DriftQuiet(w, beats[0].look.drift);
      WaitedQuiet(v, d, beats[1..]);
      QuietThen(w, v, Waited(v, d, beats[1..]).0);
    }
  }

  lemma LooksQuiet(w: World, l: Looks)
    ensures Quiet(w, LookedBoth(w, l))
    ensures Domains(w, l) == Some({}) && w.coming == map[] ==> LookedBoth(w, l).loaded == map[]
  {
    DriftQuiet(w, l.gui.drift);
    DriftQuiet(Looked(w, l.gui), l.user.drift);
    QuietThen(w, Looked(w, l.gui), Looked(Looked(w, l.gui), l.user));
    if Domains(w, l) == Some({}) && w.coming == map[] {
      assert Gui !in Domains(w, l).value && User !in Domains(w, l).value;
      NoDomains(LookedBoth(w, l).loaded);
    }
  }

  lemma NoDomains(loaded: map<Domain, Plist>)
    requires Gui !in loaded && User !in loaded
    ensures loaded == map[]
  {
    forall d | d in loaded ensures false {
      match d { case Gui => case User => }
    }
  }

  lemma BootstrappedSteady(w: World, d: Domain, l: Load)
    requires Idle(w) && w.plist.Some?
    ensures var v := Bootstrapped(w, d, l);
            Steady(v) && v.plist == w.plist && v.calm == w.calm && v.loaded.Keys <= {d} && v.coming.Keys <= {d}
            && (!l.loading.Later? ==> v.coming == map[])
            && (BootstrapOk(w, d, l) ==> v.loaded == map[d := w.plist.value] && d !in v.leaving && v.coming == map[])
  {
  }

  /** After the bootstrap nothing more is loaded. */
  lemma BootedQuiet(w: World, d: Domain, b: Boots)
    requires w.plist.Some?
    ensures Quiet(Bootstrapped(w, d, b.load), Booted(w, d, b).0)
  {
    hide Quiet, Drifted, Bootstrapped;
    var v := Bootstrapped(w, d, b.load);
    var x, y := Looked(v, b.look), Drifted(v, b.kick.drift);
    var z := Waited(y, d, b.beats).0;
    DriftQuiet(v, b.look.drift);
    DriftQuiet(v, b.kick.drift);
    RemovedQuiet(x, d, b.cleanup);
    RemovedQuiet(y, d, b.cleanup);
    WaitedQuiet(y, d, b.beats);
    RemovedQuiet(z, d, b.cleanup);
    QuietThen(v, x, Removed(x, d, b.cleanup).0);
    QuietThen(v, y, Removed(y, d, b.cleanup).0);
    QuietThen(v, y, z);
    QuietThen(v, z, Removed(z, d, b.cleanup).0);
  }

  /** With nothing loaded or coming, afterwards at most this relay is or may be, from the plist on disk. */
  lemma BootedSteady(w: World, d: Domain, b: Boots)
    requires Idle(w) && w.plist.Some?
    ensures var r := Booted(w, d, b);
            Steady(r.0) && r.0.plist == w.plist && r.0.calm == w.calm && r.0.loaded.Keys <= {d} && r.0.coming.Keys <= {d}
            && (r.1 ==> r.0.loaded == map[d := w.plist.value] && r.0.coming == map[])
            && (!b.load.loading.Later? ==> r.0.coming == map[])
  {
    var v, r := Bootstrapped(w, d, b.load), Booted(w, d, b);
    BootstrappedSteady(w, d, b.load);
    BootedQuiet(w, d, b);
    QuietSteady(v, r.0);
    NothingComes(v, r.0);
    if r.1 {
      DriftQuiet(v, b.kick.drift);
      WaitedQuiet(Drifted(v, b.kick.drift), d, b.beats);
      BootedLoaded(w, d, b);
    }
  }

  lemma NothingComes(before: World, after: World)
    requires Quiet(before, after)
    ensures before.coming == map[] ==> after.coming == map[]
    ensures after.loaded.Keys <= before.loaded.Keys + before.coming.Keys && after.coming.Keys <= before.coming.Keys
  {
  }

  lemma BootedLoaded(w: World, d: Domain, b: Boots)
    requires Idle(w) && w.plist.Some? && Booted(w, d, b).1
    ensures d in Booted(w, d, b).0.loaded && Booted(w, d, b).0.loaded[d] == w.plist.value
  {
    BootstrappedSteady(w, d, b.load);
    hide Bootstrapped;
    WaitedQuiet(Drifted(Bootstrapped(w, d, b.load), b.kick.drift), d, b.beats);
  }

  // ----- writing the plist -----

  /** The guard of every write: a new definition is safe on disk exactly when no relay is loaded or may still be. */
  lemma WriteIsSafe(w: World, content: Option<Plist>)
    requires Steady(w) && content != w.plist
    ensures Lasting(Written(w, content, true)) <==> Idle(w)
  {
    var v := Written(w, content, true);
    if Idle(w) {
      SteadyLasts(v);
    } else if d :| d in w.loaded {
      assert d in Drifted(v, Drift(false, false)).loaded;
      assert !Consistent(Drifted(v, Drift(false, false)));
    } else {
      var d :| d in w.coming;
      assert d in Drifted(v, Drift(false, true)).loaded;
      assert !Consistent(Drifted(v, Drift(false, true)));
    }
  }

  /** Nothing is loaded, and what may still be is this definition in this domain. */
  predicate Restorable(w: World, prior: Plist, d: Domain) {
    w.loaded == map[] && forall e :: e in w.coming ==> e == d && w.coming[e] == prior
  }

  const NOW := Drift(false, false)
  const LANDED := Drift(false, true)
  const QUIETLY := Look(NOW, Errors)
  const NOTHING := Remove(Bootout(NOW, false, false), [])
  /** The load succeeds and the job is seen running. */
  const RUNS := Boots(Load(NOW, true, Never), QUIETLY, Kick(NOW, true), [Beat(Look(NOW, Tells), true)], NOTHING)
  /** The load fails for good. */
  const FAILS := Boots(Load(NOW, false, Never), QUIETLY, Kick(NOW, false), [], NOTHING)

  lemma RunsBoots(w: World, d: Domain)
    requires w.plist.Some? && d !in w.loaded
    ensures Booted(w, d, RUNS) == (w.(loaded := w.loaded[d := w.plist.value], leaving := w.leaving - {d}), true)
    ensures Booted(w, d, FAILS) == (w, false)
  {
  }

  lemma FailsBoots(w: World, d: Domain)
    requires w.plist.Some?
    ensures Booted(w, d, FAILS) == (w, false)
  {
  }

  /**
   Restoring a prior definition lasts whatever happens exactly when no relay is loaded, in either domain, and no load
   may still happen but of this very definition.
   */
  lemma RestoreIsSafe(w: World, prior: Plist, d: Domain)
    requires Steady(w) && d !in w.loaded
    ensures (forall r :: Lasting(Restored(w, prior, d, r))) <==> Restorable(w, prior, d)
  {
    if Restorable(w, prior, d) {
      forall r ensures Lasting(Restored(w, prior, d, r)) {
        RestoredSteady(w, prior, d, r);
        SteadyLasts(Restored(w, prior, d, r));
      }
    } else if e :| e in w.loaded {
      var r := Restores(true, RUNS);
      RunsBoots(Written(w, Some(prior), true), d);
      var t := Drifted(Restored(w, prior, d, r), NOW);
      assert e in t.loaded && d in t.loaded;
      assert !Consistent(t);
    } else {
      var e :| e in w.coming && (e != d || w.coming[e] != prior);
      var r := Restores(true, if e == d then FAILS else RUNS);
      RunsBoots(Written(w, Some(prior), true), d);
      var t := Drifted(Restored(w, prior, d, r), LANDED);
      assert e in t.loaded && (e != d ==> d in t.loaded);
      assert !Consistent(t);
    }
  }

  lemma BootstrappedOver(w: World, d: Domain, l: Load)
    requires Steady(w) && w.loaded.Keys <= {d} && w.plist.Some? && w.coming.Keys <= {d}
    ensures var v := Bootstrapped(w, d, l);
            Steady(v) && v.plist == w.plist && v.loaded.Keys <= {d} && v.coming.Keys <= {d}
  {
    DriftQuiet(w, l.drift);
    NothingComes(w, Drifted(w, l.drift));
    QuietSteady(w, Drifted(w, l.drift));
    LoadsOver(Drifted(w, l.drift), d);
    hide Drifted, Steady;
  }

  lemma LoadsOver(w: World, d: Domain)
    requires Steady(w) && w.loaded.Keys <= {d} && w.plist.Some? && w.coming.Keys <= {d}
    ensures Steady(w.(loaded := w.loaded[d := w.plist.value], leaving := w.leaving - {d}))
    ensures Steady(w.(coming := w.coming[d := w.plist.value]))
  {
  }

  lemma RestoredSteady(w: World, prior: Plist, d: Domain, r: Restores)
    requires Steady(w) && Restorable(w, prior, d)
    ensures var v := Restored(w, prior, d, r);
            Steady(v) && v.loaded.Keys <= {d} && v.coming.Keys <= {d} && (v.plist == Some(prior) || v.plist == w.plist)
  {
    if r.write {
      var x := Written(w, Some(prior), true);
      assert Steady(x);
      BootstrappedOver(x, d, r.boots.load);
      BootedQuiet(x, d, r.boots);
      hide Booted, Bootstrapped;
      QuietSteady(Bootstrapped(x, d, r.boots.load), Booted(x, d, r.boots).0);
      NothingComes(Bootstrapped(x, d, r.boots.load), Booted(x, d, r.boots).0);
    }
  }

  /** An installation's rollback lasts whatever happens exactly when nothing is loaded and no load may still happen. */
  lemma RollbackIsSafe(w: World, d: Domain, prior: Option<Plist>, stopped: bool)
    requires Steady(w) && prior != w.plist && (stopped ==> prior.Some?)
    ensures (forall r :: Lasting(RolledBack(w, d, prior, stopped, r))) <==> Idle(w)
  {
    if e :| e in w.coming || e in w.loaded {
      var r := Rollback(true, FAILS);
      if stopped { FailsBoots(Written(w, prior, true), d); }
      var t := Drifted(RolledBack(w, d, prior, stopped, r), LANDED);
      assert e in t.loaded;
      assert !Consistent(t);
    } else {
      assert w.coming == map[] && w.loaded == map[];
      forall r ensures Lasting(RolledBack(w, d, prior, stopped, r)) {
        RolledBackSteady(w, d, prior, stopped, r);
        SteadyLasts(RolledBack(w, d, prior, stopped, r));
      }
    }
  }

  lemma RolledBackSteady(w: World, d: Domain, prior: Option<Plist>, stopped: bool, r: Rollback)
    requires Steady(w) && (stopped ==> prior.Some?) && (r.undo ==> Idle(w))
    ensures var v := RolledBack(w, d, prior, stopped, r);
            Steady(v) && v.calm == w.calm && (v.plist == prior || v.plist == w.plist)
  {
    if r.undo && stopped {
      BootedSteady(Written(w, prior, true), d, r.boots);
    }
  }

  // ----- whole operations -----

  lemma RestoredCalm(w: World, prior: Plist, d: Domain, r: Restores)
    requires Steady(w)
    ensures var v := Restored(w, prior, d, r);
            (v.plist == Some(prior) || v.plist == w.plist)
            && (v.calm <==> w.calm && (r.write ==> Idle(w)))
            && (v.calm ==> Steady(v))
  {
    if r.write {
      BootedKeeps(Written(w, Some(prior), true), d, r.boots);
      if Idle(w) {
        BootedSteady(Written(w, Some(prior), true), d, r.boots);
      }
    }
  }

  lemma BootedKeeps(w: World, d: Domain, b: Boots)
    requires w.plist.Some?
    ensures Booted(w, d, b).0.plist == w.plist && Booted(w, d, b).0.calm == w.calm
  {
    BootedQuiet(w, d, b);
    hide Booted;
  }

  lemma RecoveredCalm(w: World, prior: Plist, d: Domain, r: Recovers)
    requires Steady(w)
    ensures var v := Recovered(w, prior, d, r);
            (v.plist == Some(prior) || v.plist == w.plist) && (v.calm ==> w.calm && Steady(v))
    ensures w.loaded.Keys <= {d} && w.coming == map[] ==> Recovered(w, prior, d, r).calm == w.calm
  {
    hide Drifted, Restored, Waited;
    var v, x := Looked(w, r.first), Drifted(Looked(w, r.first), r.kick.drift);
    var y := Looked(x, r.second);
    DriftQuiet(w, r.first.drift);
    DriftQuiet(v, r.kick.drift);
    DriftQuiet(x, r.second.drift);
    WaitedQuiet(x, d, r.beats);
    QuietSteady(w, v);
    QuietSteady(v, x);
    QuietSteady(x, y);
    QuietSteady(x, Waited(x, d, r.beats).0);
    NothingComes(w, v);
    NothingComes(v, x);
    NothingComes(x, y);
    RestoredCalm(v, prior, d, r.restores);
    RestoredCalm(y, prior, d, r.restores);
    OnlyIn(v, d);
    OnlyIn(y, d);
  }

  lemma OnlyIn(w: World, d: Domain)
    ensures w.loaded.Keys <= {d} && d !in w.loaded ==> w.loaded == map[]
  {
    if w.loaded.Keys <= {d} && d !in w.loaded {
      assert w.loaded.Keys == {};
    }
  }

  /** The candidate's load failed and no relay was seen, but by now it is loaded all the same or may still be. */
  predicate LateRollback(w: World, d: Domain, candidate: Plist, o: InstallRun) {
    o.lock && o.write
    && var v := Booted(Written(w, Some(candidate), true), d, o.boots);
    !v.1 && Domains(v.0, o.after) == Some({}) && !Idle(LookedBoth(v.0, o.after))
  }

  lemma ReplacedCalm(w: World, d: Domain, candidate: Plist, stopped: bool, o: InstallRun)
    requires Steady(w) && (stopped ==> w.plist.Some?)
    ensures var r := Replaced(w, d, candidate, w.plist, stopped, o);
            (r.0.plist == Some(candidate) || r.0.plist == w.plist)
            && (r.0.calm ==>
                  w.calm && Steady(r.0) && (r.1.Installed? ==> r.0.loaded == map[d := candidate] && r.0.plist == Some(candidate)))
            && (r.1.Refused? ==> r.0 == w)
    ensures Idle(w) && w.calm && !LateRollback(w, d, candidate, o) ==> Replaced(w, d, candidate, w.plist, stopped, o).0.calm
    ensures Idle(w) && !o.boots.load.loading.Later? ==> !LateRollback(w, d, candidate, o)
  {
    hide Drifted, Booted, Restored, LookedBoth, Domains, Quiet, RolledBack;
    if stopped {
      RestoredCalm(w, w.plist.value, d, o.restores);
    }
    if o.lock && o.write {
      var x := Written(w, Some(candidate), true);
      BootedKeeps(x, d, o.boots);
      if Idle(w) {
        BootedSteady(x, d, o.boots);
      }
      var v := Booted(x, d, o.boots).0;
      var y := LookedBoth(v, o.after);
      LooksQuiet(v, o.after);
      QuietBoth(v, y);
      RolledBackCalm(y, d, w.plist, stopped, o.rollback);
    }
  }

  lemma QuietBoth(before: World, after: World)
    requires Quiet(before, after)
    ensures after.plist == before.plist && after.calm == before.calm && (Steady(before) ==> Steady(after))
    ensures before.coming == map[] ==> after.coming == map[]
    ensures after.loaded.Keys <= before.loaded.Keys + before.coming.Keys
  {
    NothingComes(before, after);
    if Steady(before) { QuietSteady(before, after); }
  }

  lemma RolledBackCalm(w: World, d: Domain, prior: Option<Plist>, stopped: bool, r: Rollback)
    requires stopped ==> prior.Some?
    ensures var v := RolledBack(w, d, prior, stopped, r);
            (v.plist == prior || v.plist == w.plist) && (v.calm <==> w.calm && (r.undo ==> Idle(w)))
            && (v.calm && Steady(w) ==> Steady(v))
  {
    if r.undo && stopped {
      BootedKeeps(Written(w, prior, true), d, r.boots);
    }
    if Steady(w) && (r.undo ==> Idle(w)) {
      RolledBackSteady(w, d, prior, stopped, r);
    }
  }

  /**
   An installation that only ever wrote the plist with nothing loaded or to be loaded leaves at most one relay, of the
   plist on disk, for good; one that says it installed runs the candidate.
   */
  lemma InstallSafe(w: World, d: Domain, candidate: Plist, o: InstallRun)
    requires Steady(w)
    ensures var r := InstallOutcome(w, d, candidate, o);
            (r.0.plist == Some(candidate) || r.0.plist == w.plist) && (r.1.Refused? ==> Quiet(w, r.0))
            && (r.0.calm ==>
                  Steady(r.0) && Lasting(r.0)
                  && (r.1.Installed? ==> r.0.loaded == map[d := candidate] && r.0.plist == Some(candidate)))
  {
    hide Drifted, Removed, Replaced, Recovered, LookedBoth, Domains, Quiet, Lasting;
    var v := LookedBoth(w, o.domains);
    QuietSelf(w);
    LooksQuiet(w, o.domains);
    QuietBoth(w, v);
    ReplacedCalm(v, d, candidate, false, o);
    RemovedQuiet(v, d, o.remove);
    var x := Removed(v, d, o.remove).0;
    QuietBoth(v, x);
    QuietThen(w, v, x);
    if w.plist.Some? {
      ReplacedCalm(x, d, candidate, true, o);
      RecoveredCalm(x, w.plist.value, d, o.recover);
    }
    if InstallOutcome(w, d, candidate, o).0.calm {
      SteadyLasts(InstallOutcome(w, d, candidate, o).0);
    }
  }

  /** The world in which the plist is replaced, if the installation gets that far, and whether it stopped a job. */
  function ReplaceFrom(w: World, d: Domain, o: InstallRun): Option<(World, bool)> {
    var v, found := LookedBoth(w, o.domains), Domains(w, o.domains);
    if !o.ready || found.None? || |found.value| > 1 || (d.User? && !o.reachable) then None
    else if found.value == {} then Some((v, false))
    else if found.value != {d} || w.plist.None? || !w.plist.value.owned || !Removed(v, d, o.remove).1 then None
    else Some((Removed(v, d, o.remove).0, true))
  }

  predicate RollsBackLate(w: World, d: Domain, candidate: Plist, o: InstallRun) {
    ReplaceFrom(w, d, o).Some? && LateRollback(ReplaceFrom(w, d, o).value.0, d, candidate, o)
  }

  /** Unless it rolls back over a load that was given up on, an installation makes every write with nothing loaded. */
  lemma InstallCalm(w: World, d: Domain, candidate: Plist, o: InstallRun)
    requires Steady(w) && w.calm && w.coming == map[]
    ensures !RollsBackLate(w, d, candidate, o) ==> InstallOutcome(w, d, candidate, o).0.calm
    ensures !o.boots.load.loading.Later? ==> !RollsBackLate(w, d, candidate, o)
    ensures ReplaceFrom(w, d, o).Some? ==>
              var v := ReplaceFrom(w, d, o).value; Idle(v.0) && v.0.plist == w.plist && (v.1 ==> w.plist.Some?)
  {
    hide Drifted, Removed, Replaced, Recovered, LookedBoth, Quiet, LateRollback;
    var v := LookedBoth(w, o.domains);
    LooksQuiet(w, o.domains);
    QuietBoth(w, v);
    ReplacedCalm(v, d, candidate, false, o);
    RemovedQuiet(v, d, o.remove);
    var x := Removed(v, d, o.remove).0;
    QuietBoth(v, x);
    var found := Domains(w, o.domains);
    if found == Some({d}) {
      SeenIn(w, d, o.domains);
      OnlyIn(x, d);
      if w.plist.Some? {
        ReplacedCalm(x, d, candidate, true, o);
        RecoveredCalm(x, w.plist.value, d, o.recover);
      }
    }
  }

  /** What a late rollback starts from and comes to. */
  lemma LateOutcome(w: World, d: Domain, candidate: Plist, o: InstallRun, r: Rollback)
    requires Steady(w) && w.calm && w.coming == map[] && RollsBackLate(w, d, candidate, o)
    ensures var stopped := ReplaceFrom(w, d, o).value.1; var x := BeforeRollback(w, d, candidate, o);
            InstallOutcome(w, d, candidate, o.(rollback := r)).0 == RolledBack(x, d, w.plist, stopped, r)
            && Steady(x) && !Idle(x) && x.plist == Some(candidate) && x.loaded.Keys <= {d} && x.coming.Keys <= {d}
            && (stopped ==> w.plist.Some?)
  {
    InstallCalm(w, d, candidate, o);
    hide Drifted, Removed, Recovered, Booted, LookedBoth, Domains, RolledBack, Quiet, Steady;
    var v := Written(ReplaceFrom(w, d, o).value.0, Some(candidate), true);
    BootedSteady(v, d, o.boots);
    LooksQuiet(Booted(v, d, o.boots).0, o.after);
    QuietBoth(Booted(v, d, o.boots).0, BeforeRollback(w, d, candidate, o));
    NothingComes(Booted(v, d, o.boots).0, BeforeRollback(w, d, candidate, o));
  }

  function BeforeRollback(w: World, d: Domain, candidate: Plist, o: InstallRun): World
    requires ReplaceFrom(w, d, o).Some?
  {
    LookedBoth(Booted(Written(ReplaceFrom(w, d, o).value.0, Some(candidate), true), d, o.boots).0, o.after)
  }

  /** Rolling back to the same definition takes nothing away. */
  lemma SameAgain(w: World, d: Domain, stopped: bool, r: Rollback)
    requires Steady(w) && w.plist.Some? && w.loaded.Keys <= {d} && w.coming.Keys <= {d}
    ensures Steady(RolledBack(w, d, w.plist, stopped, r))
  {
    if r.undo && stopped {
      var v := Written(w, w.plist, true);
      BootstrappedOver(v, d, r.boots.load);
      BootedQuiet(v, d, r.boots);
      hide Booted, Bootstrapped;
      QuietSteady(Bootstrapped(v, d, r.boots.load), Booted(v, d, r.boots).0);
    }
  }

  /**
   With no load pending as it begins, an installation leaves at most one relay, of the plist on disk, for good, however
   its rollback goes, exactly unless it rolls back to a different definition over a candidate that loads late.
   */
  lemma InstallIsSafe(w: World, d: Domain, candidate: Plist, o: InstallRun)
    requires Steady(w) && w.calm && w.coming == map[]
    ensures (forall r :: Lasting(InstallOutcome(w, d, candidate, o.(rollback := r)).0))
            <==> !(RollsBackLate(w, d, candidate, o) && w.plist != Some(candidate))
  {
    hide Lasting, InstallOutcome, RolledBack, Steady;
    if !RollsBackLate(w, d, candidate, o) {
      forall r ensures Lasting(InstallOutcome(w, d, candidate, o.(rollback := r)).0) {
        InstallCalm(w, d, candidate, o.(rollback := r));
        InstallSafe(w, d, candidate, o.(rollback := r));
      }
    } else {
      var x, stopped := BeforeRollback(w, d, candidate, o), ReplaceFrom(w, d, o).value.1;
      hide ReplaceFrom, RollsBackLate, BeforeRollback;
      forall r ensures InstallOutcome(w, d, candidate, o.(rollback := r)).0 == RolledBack(x, d, w.plist, stopped, r) {
        LateOutcome(w, d, candidate, o, r);
      }
      LateOutcome(w, d, candidate, o, o.rollback);
      if w.plist != Some(candidate) {
        RollbackIsSafe(x, d, w.plist, stopped);
        var r :| !Lasting(RolledBack(x, d, w.plist, stopped, r));
        assert !Lasting(InstallOutcome(w, d, candidate, o.(rollback := r)).0);
      } else {
        forall r ensures Lasting(InstallOutcome(w, d, candidate, o.(rollback := r)).0) {
          SameAgain(x, d, stopped, r);
          SteadyLasts(RolledBack(x, d, w.plist, stopped, r));
        }
      }
    }
  }

  lemma SeenIn(w: World, d: Domain, l: Looks)
    requires Steady(w) && w.coming == map[] && Domains(w, l) == Some({d})
    ensures LookedBoth(w, l).loaded.Keys <= {d}
  {
    assert d in Domains(w, l).value;
    LooksQuiet(w, l);
    DriftQuiet(w, l.gui.drift);
    DriftQuiet(Looked(w, l.gui), l.user.drift);
  }

  lemma SeesNothing(w: World)
    requires w.loaded == map[]
    ensures var told := Look(NOW, Tells); Domains(w, Looks(told, told)) == Some({}) && LookedBoth(w, Looks(told, told)) == w
  {
    var told := Look(NOW, Tells);
    assert Looked(w, told) == w && Seen(w, Gui, told).Absent? && Seen(w, User, told).Absent?;
    var none: set<Domain> := {};
    assert none + none == none;
  }

  /** A first installation whose load lands after the rollback: the relay runs without a plist. */
  lemma LateLoadBreaksInstall(candidate: Plist)
    ensures var w := World(map[], {}, map[], None, true);
            exists o :: !Lasting(InstallOutcome(w, Gui, candidate, o).0) && InstallOutcome(w, Gui, candidate, o).1.Failed?
  {
    var w := World(map[], {}, map[], None, true);
    var told := Look(NOW, Tells);
    var late := Boots(Load(NOW, false, Later), told, Kick(NOW, false), [], NOTHING);
    var o := InstallRun(true, Looks(told, told), true, NOTHING, Recovers(told, Kick(NOW, false), [], told, Restores(false, FAILS)),
                        true, true, Restores(false, FAILS), late, Looks(told, told), Rollback(true, FAILS));
    var v := w.(plist := Some(candidate), coming := map[Gui := candidate]);
    SeesNothing(w);
    assert Booted(Written(w, Some(candidate), true), Gui, late) == (v, false);
    SeesNothing(v);
    var r := InstallOutcome(w, Gui, candidate, o);
    assert r.0 == v.(plist := None, calm := false);
    assert Gui in Drifted(r.0, LANDED).loaded;
    assert !Consistent(Drifted(r.0, LANDED));
  }

  // ----- handoff -----

  /** The candidate's load failed and no relay was seen, but by now it is loaded all the same or may still be. */
  predicate HandoffLate(w: World, d: Domain, candidate: Plist, o: HandoffRun) {
    var x := Removed(w, d, o.remove);
    x.1 && o.lock && o.write
    && var v := Booted(Written(x.0, Some(candidate), true), d, o.boots);
    !v.1 && Domains(v.0, o.after) == Some({}) && !Idle(LookedBoth(v.0, o.after))
  }

  /** The same for a handoff, whatever was loaded before. */
  lemma HandoffSafe(w: World, d: Domain, candidate: Plist, rollback: Plist, o: HandoffRun)
    requires Steady(w)
    ensures var r := HandoffOutcome(w, d, candidate, rollback, o);
            (r.0.plist == w.plist || r.0.plist == Some(candidate) || r.0.plist == Some(rollback))
            && (r.0.calm ==> Steady(r.0) && (r.1 ==> r.0.loaded == map[d := candidate] && r.0.plist == Some(candidate)))
    ensures w.calm && w.coming == map[] && w.loaded.Keys <= {d} && !HandoffLate(w, d, candidate, o) ==>
              HandoffOutcome(w, d, candidate, rollback, o).0.calm
    ensures w.coming == map[] && w.loaded.Keys <= {d} && !o.boots.load.loading.Later? ==> !HandoffLate(w, d, candidate, o)
  {
    hide Drifted, Removed, Booted, Restored, Recovered, LookedBoth, Quiet;
    RemovedQuiet(w, d, o.remove);
    var x := Removed(w, d, o.remove);
    QuietBoth(w, x.0);
    OnlyIn(x.0, d);
    RecoveredCalm(x.0, rollback, d, o.recover);
    RestoredCalm(x.0, rollback, d, o.restores);
    var z := Written(x.0, Some(candidate), true);
    BootedKeeps(z, d, o.boots);
    if Idle(x.0) {
      BootedSteady(z, d, o.boots);
    }
    var v := Booted(z, d, o.boots).0;
    LooksQuiet(v, o.after);
    QuietBoth(v, LookedBoth(v, o.after));
    if Steady(v) {
      RestoredCalm(LookedBoth(v, o.after), rollback, d, o.again);
    } else {
      RestoredKeeps(LookedBoth(v, o.after), rollback, d, o.again);
    }
  }

  lemma RestoredKeeps(w: World, prior: Plist, d: Domain, r: Restores)
    ensures Restored(w, prior, d, r).plist == Some(prior) || Restored(w, prior, d, r).plist == w.plist
    ensures Restored(w, prior, d, r).calm ==> w.calm
  {
    if r.write {
      BootedKeeps(Written(w, Some(prior), true), d, r.boots);
    }
  }

  const REFUSED := HandoffRun(Remove(Bootout(NOW, false, true), []),
                              Recovers(QUIETLY, Kick(NOW, false), [], QUIETLY, Restores(false, FAILS)),
                              false, false, Restores(true, RUNS), FAILS, Looks(QUIETLY, QUIETLY), Restores(false, FAILS))

  /**
   With no load pending, a handoff lasts whatever happens, late loads apart, exactly when no relay is loaded in the other
   domain as it begins.
   */
  lemma HandoffIsSafe(w: World, d: Domain, candidate: Plist, rollback: Plist)
    requires Steady(w) && w.calm && w.coming == map[]
    ensures (forall o: HandoffRun :: !o.boots.load.loading.Later? ==> Lasting(HandoffOutcome(w, d, candidate, rollback, o).0))
            <==> w.loaded.Keys <= {d}
  {
    hide Lasting;
    if w.loaded.Keys <= {d} {
      forall o: HandoffRun | !o.boots.load.loading.Later? ensures Lasting(HandoffOutcome(w, d, candidate, rollback, o).0) {
        HandoffSafe(w, d, candidate, rollback, o);
        SteadyLasts(HandoffOutcome(w, d, candidate, rollback, o).0);
      }
    } else {
      HandoffClashes(w, d, candidate, rollback);
    }
  }

  function BeforeAgain(w: World, d: Domain, candidate: Plist, o: HandoffRun): World {
    LookedBoth(Booted(Written(Removed(w, d, o.remove).0, Some(candidate), true), d, o.boots).0, o.after)
  }

  lemma HandoffAgain(w: World, d: Domain, candidate: Plist, rollback: Plist, o: HandoffRun, again: Restores)
    requires Steady(w) && w.coming == map[] && w.loaded.Keys <= {d} && HandoffLate(w, d, candidate, o)
    ensures var x := BeforeAgain(w, d, candidate, o);
            HandoffOutcome(w, d, candidate, rollback, o.(again := again)).0
            == RolledBack(x, d, Some(rollback), true, Rollback(again.write, again.boots))
            && Steady(x) && !Idle(x) && x.plist == Some(candidate) && x.loaded.Keys <= {d} && x.coming.Keys <= {d}
  {
    hide Drifted, Removed, Recovered, Booted, LookedBoth, Domains, Quiet, Steady;
    RemovedQuiet(w, d, o.remove);
    var x := Removed(w, d, o.remove).0;
    QuietBoth(w, x);
    OnlyIn(x, d);
    var v := Written(x, Some(candidate), true);
    BootedSteady(v, d, o.boots);
    LooksQuiet(Booted(v, d, o.boots).0, o.after);
    QuietBoth(Booted(v, d, o.boots).0, BeforeAgain(w, d, candidate, o));
    NothingComes(Booted(v, d, o.boots).0, BeforeAgain(w, d, candidate, o));
  }

  /**
   With no relay in the other domain, exactly unless it restores a different definition over a candidate that loads late.
   */
  lemma HandoffRestoreIsSafe(w: World, d: Domain, candidate: Plist, rollback: Plist, o: HandoffRun)
    requires Steady(w) && w.calm && w.coming == map[] && w.loaded.Keys <= {d}
    ensures (forall again :: Lasting(HandoffOutcome(w, d, candidate, rollback, o.(again := again)).0))
            <==> !(HandoffLate(w, d, candidate, o) && rollback != candidate)
  {
    hide Lasting, HandoffOutcome, RolledBack, Steady;
    if !HandoffLate(w, d, candidate, o) {
      forall again ensures Lasting(HandoffOutcome(w, d, candidate, rollback, o.(again := again)).0) {
        HandoffSafe(w, d, candidate, rollback, o.(again := again));
        SteadyLasts(HandoffOutcome(w, d, candidate, rollback, o.(again := again)).0);
      }
    } else {
      var x := BeforeAgain(w, d, candidate, o);
      hide HandoffLate, BeforeAgain;
      HandoffAgain(w, d, candidate, rollback, o, o.again);
      if rollback != candidate {
        RollbackIsSafe(x, d, Some(rollback), true);
        var r :| !Lasting(RolledBack(x, d, Some(rollback), true, r));
        HandoffAgain(w, d, candidate, rollback, o, Restores(r.undo, r.boots));
        assert !Lasting(HandoffOutcome(w, d, candidate, rollback, o.(again := Restores(r.undo, r.boots))).0);
      } else {
        forall again ensures Lasting(HandoffOutcome(w, d, candidate, rollback, o.(again := again)).0) {
          HandoffAgain(w, d, candidate, rollback, o, again);
          SameAgain(x, d, true, Rollback(again.write, again.boots));
          SteadyLasts(RolledBack(x, d, Some(rollback), true, Rollback(again.write, again.boots)));
        }
      }
    }
  }

  /** A relay in the other domain holds the run lock; the handoff's restore then loads a second one. */
  lemma HandoffClashes(w: World, d: Domain, candidate: Plist, rollback: Plist)
    requires Steady(w) && !(w.loaded.Keys <= {d})
    ensures !Lasting(HandoffOutcome(w, d, candidate, rollback, REFUSED).0)
  {
    var e :| e in w.loaded && e != d;
    assert d !in w.loaded;
    RunsBoots(Written(w, Some(rollback), true), d);
    var r := HandoffOutcome(w, d, candidate, rollback, REFUSED).0;
    assert e in Drifted(r, NOW).loaded && d in Drifted(r, NOW).loaded;
    assert !Consistent(Drifted(r, NOW));
  }

  /** Uninstalled and installed for the user domain between scheduling and running: two relays loaded at the end. */
  lemma HandoffAfterMove(legacy: Plist, moved: Plist, candidate: Plist)
    ensures var w := World(map[User := moved], {}, map[], Some(moved), true);
            Steady(w) && HandoffOutcome(w, Gui, candidate, legacy, REFUSED).0.loaded == map[User := moved, Gui := legacy]
  {
    var w := World(map[User := moved], {}, map[], Some(moved), true);
    RunsBoots(Written(w, Some(legacy), true), Gui);
  }

  // ----- uninstall -----

  lemma ClearedQuiet(w: World, d: Domain, look: Look, r: Remove)
    ensures Quiet(w, Cleared(w, d, look, r).0)
    ensures Cleared(w, d, look, r).1 ==> d !in Cleared(w, d, look, r).0.loaded
  {
    DriftQuiet(w, look.drift);
    RemovedQuiet(Looked(w, look), d, r);
    QuietThen(w, Looked(w, look), Removed(Looked(w, look), d, r).0);
  }

  /** The plist goes only after every relay has; a failure leaves it in place. */
  lemma UninstallSafe(w: World, o: UninstallRun)
    requires Steady(w)
    ensures var r := UninstallOutcome(w, o);
            (if r.1 then r.0.plist == None else Quiet(w, r.0)) && (r.0.calm ==> Steady(r.0) && (r.1 ==> Idle(r.0)))
    ensures w.coming == map[] ==> UninstallOutcome(w, o).0.calm == w.calm
  {
    hide Drifted, Cleared, LookedBoth, Domains, Quiet;
    var a := Cleared(w, Gui, o.gui, o.guiRemove);
    ClearedQuiet(w, Gui, o.gui, o.guiRemove);
    var b := Cleared(a.0, User, o.user, o.userRemove);
    ClearedQuiet(a.0, User, o.user, o.userRemove);
    var v := LookedBoth(b.0, o.after);
    LooksQuiet(b.0, o.after);
    QuietBoth(w, a.0);
    QuietBoth(a.0, b.0);
    QuietBoth(b.0, v);
    QuietThen(w, a.0, b.0);
    QuietThen(w, b.0, v);
  }
}
