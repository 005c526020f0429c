/**
 What launchd, its commands and the steps of `service.go` do to the relay's job. Every command, probe, lock and file
 step takes its outcome as an argument, and time may pass before each: a job told to leave goes some time later, and
 a load whose command was given up on may still happen.
 */
module LaunchdModel {
  import opened Wrappers

  datatype Domain = Gui | User

  datatype Plist = Plist(instance: nat, owned: bool)

  /**
   Loaded jobs with the definition they were loaded from, the ones on their way out, loads that may still happen, and
   the plist on disk. `calm`: the plist was only ever written while nothing was loaded or still to be loaded.
   */
  datatype World = World(loaded: map<Domain, Plist>, leaving: set<Domain>, coming: map<Domain, Plist>, plist: Option<Plist>, calm: bool)

  predicate Idle(w: World) { w.loaded == map[] && w.coming == map[] }

  /** At most one relay is loaded, and its definition is the plist on disk. */
  predicate Consistent(w: World) {
    (forall d, e :: d in w.loaded && e in w.loaded ==> d == e)
    && (forall d :: d in w.loaded ==> w.plist == Some(w.loaded[d]))
  }

  // ----- time -----

  datatype Drift = Drift(leave: bool, land: bool)

  /** Leaving jobs may go, and pending loads may land where their label is free. */
  function Drifted(w: World, t: Drift): World {
    var v := if t.leave then w.(loaded := w.loaded - w.leaving, leaving := {}) else w;
    if t.land then v.(loaded := v.coming + v.loaded, coming := map[]) else v
  }

  /** Consistent now and however time passes. */
  ghost predicate Lasting(w: World) { forall t :: Consistent(Drifted(w, t)) }

  // ----- commands -----

  datatype Answer = Tells | TimesOut | Errors

  /** One `launchctl print`. */
  datatype Look = Look(drift: Drift, answer: Answer)

  datatype Probe = ProbeFailed | Loaded | Absent

  function Looked(w: World, l: Look): World { Drifted(w, l.drift) }

  function Seen(w: World, d: Domain, l: Look): Probe {
    if !l.answer.Tells? then ProbeFailed else if d in Looked(w, l).loaded then Loaded else Absent
  }

  /** `launchctl bootout`. A command that fails may have told the job to leave all the same. */
  datatype Bootout = Bootout(drift: Drift, told: bool, succeeds: bool)

  datatype Removal = Gone | NotFound | RemovalFailed

  function BootedOut(w: World, d: Domain, b: Bootout): World {
    var v := Drifted(w, b.drift);
    if d in v.loaded && (b.told || b.succeeds) then v.(leaving := v.leaving + {d}) else v
  }

  /** Exit code 113 says there was no such job. */
  function BootoutResult(w: World, d: Domain, b: Bootout): Removal {
    if !b.succeeds then RemovalFailed else if d in Drifted(w, b.drift).loaded then Gone else NotFound
  }

  /** `launchctl bootstrap`. A command that fails may load the job now, later or never. */
  datatype Loading = Now | Later | Never

  datatype Load = Load(drift: Drift, succeeds: bool, loading: Loading)

  function Bootstrapped(w: World, d: Domain, l: Load): World
    requires w.plist.Some?
  {
    var v := Drifted(w, l.drift);
    if d in v.loaded then v
    else if l.succeeds || l.loading.Now? then v.(loaded := v.loaded[d := v.plist.value], leaving := v.leaving - {d})
    else if l.loading.Later? then v.(coming := v.coming[d := v.plist.value])
    else v
  }

  predicate BootstrapOk(w: World, d: Domain, l: Load) { l.succeeds && d !in Drifted(w, l.drift).loaded }

  datatype Kick = Kick(drift: Drift, succeeds: bool)

  // ----- the steps of the service code -----

  /** Wait for a booted-out job to go. A probe that times out is repeated, any other failure ends the wait. */
  function Polled(w: World, d: Domain, polls: seq<Look>): (r: (World, bool))
    ensures r.1 ==> d !in r.0.loaded
    decreases |polls|
  {
    if polls == [] then (w, false)
    else
      var v := Looked(w, polls[0]);
      match Seen(w, d, polls[0])
      case Absent => (v, true)
      case Loaded => Polled(v, d, polls[1..])
      case ProbeFailed => if polls[0].answer.TimesOut? then Polled(v, d, polls[1..]) else (v, false)
  }

  datatype Remove = Remove(bootout: Bootout, polls: seq<Look>)

  function Removed(w: World, d: Domain, r: Remove): (o: (World, bool))
    ensures o.1 ==> d !in o.0.loaded
  {
    var v := BootedOut(w, d, r.bootout);
    match BootoutResult(w, d, r.bootout)
    case NotFound => (v, true)
    case RemovalFailed => (v, false)
    case Gone => Polled(v, d, r.polls)
  }

  /** One look at a starting job, and whether two heartbeats of it have been seen. */
  datatype Beat = Beat(look: Look, beats: bool)

  function Waited(w: World, d: Domain, beats: seq<Beat>): (World, bool)
    decreases |beats|
  {
    if beats == [] then (w, false)
    else
      var v := Looked(w, beats[0].look);
      if Seen(w, d, beats[0].look).Loaded? && beats[0].beats then (v, true) else Waited(v, d, beats[1..])
  }

  datatype Boots = Boots(load: Load, look: Look, kick: Kick, beats: seq<Beat>, cleanup: Remove)

  /** Load the plist on disk and see it run; otherwise remove it again as far as that succeeds. */
  function Booted(w: World, d: Domain, b: Boots): (World, bool)
    requires w.plist.Some?
  {
    var v := Bootstrapped(w, d, b.load);
    if !BootstrapOk(w, d, b.load) then
      (if Seen(v, d, b.look).Loaded? then Removed(Looked(v, b.look), d, b.cleanup).0 else Looked(v, b.look), false)
    else
      var x := Drifted(v, b.kick.drift);
      if !b.kick.succeeds || d !in x.loaded then (Removed(x, d, b.cleanup).0, false)
      else
        var y := Waited(x, d, b.beats);
        if y.1 then (y.0, true) else (Removed(y.0, d, b.cleanup).0, false)
  }

  /** The plist is replaced or removed by one rename or unlink; a failure leaves it as it was. */
  function Written(w: World, content: Option<Plist>, ok: bool): World {
    if ok then w.(plist := content, calm := w.calm && Idle(w)) else w
  }

  datatype Restores = Restores(write: bool, boots: Boots)

  function Restored(w: World, prior: Plist, d: Domain, r: Restores): World {
    var v := Written(w, Some(prior), r.write);
    if r.write then Booted(v, d, r.boots).0 else v
  }

  datatype Recovers = Recovers(first: Look, kick: Kick, beats: seq<Beat>, second: Look, restores: Restores)

  /** The prior job could not be removed: restart it if it is still there, load it again if it has gone after all. */
  function Recovered(w: World, prior: Plist, d: Domain, r: Recovers): World {
    var v := Looked(w, r.first);
    match Seen(w, d, r.first)
    case ProbeFailed => v
    case Absent => Restored(v, prior, d, r.restores)
    case Loaded =>
      var x := Drifted(v, r.kick.drift);
      if r.kick.succeeds && d in x.loaded then Waited(x, d, r.beats).0
      else
        var y := Looked(x, r.second);
        if Seen(x, d, r.second).Absent? then Restored(y, prior, d, r.restores) else y
  }

  datatype Looks = Looks(gui: Look, user: Look)

  function LookedBoth(w: World, l: Looks): World {
    if Seen(w, Gui, l.gui).ProbeFailed? then Looked(w, l.gui) else Looked(Looked(w, l.gui), l.user)
  }

  /** The domains a relay was seen in, unless a probe failed. */
  function Domains(w: World, l: Looks): Option<set<Domain>> {
    var v := Looked(w, l.gui);
    if Seen(w, Gui, l.gui).ProbeFailed? || Seen(v, User, l.user).ProbeFailed? then None
    else Some((if Seen(w, Gui, l.gui).Loaded? then {Gui} else {}) + (if Seen(v, User, l.user).Loaded? then {User} else {}))
  }

  datatype Rollback = Rollback(undo: bool, boots: Boots)

  function RolledBack(w: World, d: Domain, prior: Option<Plist>, stopped: bool, r: Rollback): World
    requires stopped ==> prior.Some?
  {
    var v := Written(w, prior, r.undo);
    if r.undo && stopped then Booted(v, d, r.boots).0 else v
  }

  datatype InstallEnd = Installed | Refused | Failed

  /** The outcomes an installation can meet. Those of steps it does not take do not matter. */
  datatype InstallRun = InstallRun(ready: bool, domains: Looks, reachable: bool, remove: Remove, recover: Recovers, lock: bool,
                                   write: bool, restores: Restores, boots: Boots, after: Looks, rollback: Rollback)

  /** With nothing loaded: run lock, plist, bootstrap, rollback. */
  function Replaced(w: World, d: Domain, candidate: Plist, prior: Option<Plist>, stopped: bool, o: InstallRun): (World, InstallEnd)
    requires stopped ==> prior.Some?
  {
    if !o.lock || !o.write then
      if stopped then (Restored(w, prior.value, d, o.restores), Failed) else (w, Refused)
    else
      var v := Booted(Written(w, Some(candidate), true), d, o.boots);
      if v.1 then (v.0, Installed)
      else
        var x := LookedBoth(v.0, o.after);
        if Domains(v.0, o.after) == Some({}) then (RolledBack(x, d, prior, stopped, o.rollback), Failed) else (x, Failed)
  }

  function InstallOutcome(w: World, d: Domain, candidate: Plist, o: InstallRun): (World, InstallEnd) {
    var v, found := LookedBoth(w, o.domains), Domains(w, o.domains);
    if !o.ready then (w, Refused)
    else if found.None? || |found.value| > 1 || (d.User? && !o.reachable) then (v, Refused)
    else if found.value == {} then Replaced(v, d, candidate, w.plist, false, o)
    else if found.value != {d} || w.plist.None? || !w.plist.value.owned then (v, Refused)
    else
      var x := Removed(v, d, o.remove);
      if x.1 then Replaced(x.0, d, candidate, w.plist, true, o) else (Recovered(x.0, w.plist.value, d, o.recover), Failed)
  }

  datatype HandoffRun = HandoffRun(remove: Remove, recover: Recovers, lock: bool, write: bool, restores: Restores, boots: Boots,
                                   after: Looks, again: Restores)

  function HandoffOutcome(w: World, d: Domain, candidate: Plist, rollback: Plist, o: HandoffRun): (World, bool) {
    var x := Removed(w, d, o.remove);
    if !x.1 then (Recovered(x.0, rollback, d, o.recover), false)
    else if !o.lock || !o.write then (Restored(x.0, rollback, d, o.restores), false)
    else
      var v := Booted(Written(x.0, Some(candidate), true), d, o.boots);
      if v.1 then (v.0, true)
      else if Domains(v.0, o.after) == Some({}) then (Restored(LookedBoth(v.0, o.after), rollback, d, o.again), false)
      else (LookedBoth(v.0, o.after), false)
  }

  datatype UninstallRun = UninstallRun(gui: Look, guiRemove: Remove, user: Look, userRemove: Remove, after: Looks, lock: bool, write: bool)

  /** Look at one domain and remove what is there; false ends the uninstallation. */
  function Cleared(w: World, d: Domain, look: Look, r: Remove): (World, bool) {
    match Seen(w, d, look)
    case ProbeFailed => (Looked(w, look), false)
    case Absent => (Looked(w, look), true)
    case Loaded => Removed(Looked(w, look), d, r)
  }

  function UninstallOutcome(w: World, o: UninstallRun): (World, bool) {
    var a := Cleared(w, Gui, o.gui, o.guiRemove);
    if !a.1 then a
    else
      var b := Cleared(a.0, User, o.user, o.userRemove);
      if !b.1 then b
      else
        var v := LookedBoth(b.0, o.after);
        if Domains(b.0, o.after) != Some({}) || !o.lock then (v, false) else (Written(v, None, o.write), o.write)
  }
}
