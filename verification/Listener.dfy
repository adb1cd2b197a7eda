/** The fallback listener's marker protocol.

Three files and a supervised process.  The process reads the live file whenever the supervisor
starts it, which it does on its own after a crash; the marker claims what the process was started
from.  Plain writes may be cut short, and the agent may die in any step. */
module Listener {
  import opened Domain
  import opened Fallback

  datatype File = Absent | Torn | Whole(config: ListenerConfig)

  /** Gone is dead or failed, Looping waits to be started again, and Between is on its way from one
  state to another, as while it is being stopped. */
  datatype UnitState = Gone | Looping | Between | Up(from: ListenerConfig)

  datatype Snapshot = Snapshot(file: File, probe: File, marker: File, unit: UnitState)

  /** What the supervisor and the process do between two steps. */
  datatype Bump = Quiet | Falls | Turns | Restarts | Ends

  datatype Extent = NotAtAll | Partly | Wholly

  datatype Outcome = Works | Fails(extent: Extent) | Dies(extent: Extent)

  datatype Event = Event(bump: Bump, outcome: Outcome)

  /** Rejected: the rendered configuration was refused, and the listener stopped for it. */
  datatype Status = Fine | Error | Rejected | Crashed

  function Bumped(unit: UnitState, file: File, bump: Bump): UnitState {
    if unit == Gone then Gone
    else match bump
      case Quiet => unit
      case Falls => Looping
      case Turns => Between
      case Restarts => if file.Whole? then Up(file.config) else Looping
      case Ends => Gone
  }

  /** Where a unit can have got to, by any number of bumps. */
  predicate Moved(before: UnitState, after: UnitState, file: File) {
    || after == before || after == Gone
    || (before != Gone && (after == Looping || after == Between || (file.Whole? && after == Up(file.config))))
  }

  predicate Calm(e: Event) { e.bump == Quiet && e.outcome == Works }

  ghost predicate AllCalm(script: nat -> Event) { forall n: nat :: Calm(script(n)) }

  // ------------------------------------------------------------------
  // The marker's claim
  // ------------------------------------------------------------------

  /** A marker beside a unit that is there at all tells the truth: the live file is what it names,
  and so is what a running process was started from. */
  predicate Sound(s: Snapshot) {
    s.marker.Whole? && s.unit != Gone ==>
      s.file == s.marker && (s.unit.Up? ==> s.unit.from == s.marker.config)
  }

  /** Nothing serves anything but this configuration. */
  predicate ServesOnly(s: Snapshot, config: ListenerConfig) {
    s.unit != Gone ==> s.file == Whole(config) && (s.unit.Up? ==> s.unit.from == config)
  }

  /** What a look that raises no alarm has seen: the process running from this configuration, or a unit
  on its way from one state to another. */
  predicate Staying(seen: UnitState, config: ListenerConfig) { seen == Up(config) || seen == Between }

  predicate Cleared(s: Snapshot) {
    s.unit == Gone && s.file == Absent && s.probe == Absent && s.marker == Absent
  }

  class RealityIngress {
    const script: nat -> Event
    var clock: nat
    var file: File
    var probe: File
    var marker: File
    var unit: UnitState

    ghost function Now(): Snapshot reads this { Snapshot(file, probe, marker, unit) }

    constructor (script: nat -> Event, s: Snapshot)
      ensures this.script == script && Now() == s
    {
      this.script := script;
      clock := 0;
      file, probe, marker, unit := s.file, s.probe, s.marker, s.unit;
    }

    method Step() returns (outcome: Outcome)
      modifies `clock, `unit
      ensures outcome == script(old(clock)).outcome && clock == old(clock) + 1
      ensures Moved(old(unit), unit, file)
      ensures AllCalm(script) ==> outcome == Works && unit == old(unit)
    {
      var e := script(clock);
      clock := clock + 1;
      unit := Bumped(unit, file, e.bump);
      return e.outcome;
    }

    /** Writes unless the content is there already; what a failed or interrupted write leaves may be
    neither the old content nor the new. */
    method WriteLive(config: ListenerConfig) returns (s: Status)
      modifies `clock, `unit, `file
      ensures s == Fine ==> file == Whole(config)
      ensures s != Rejected
      ensures AllCalm(script) ==> s == Fine
    {
      var outcome := Step();
      if file == Whole(config) && !outcome.Dies? { return Fine; }
      if outcome == Works { file := Whole(config); return Fine; }
      match outcome.extent {
        case NotAtAll =>
        case Partly => file := Torn;
        case Wholly => file := Whole(config);
      }
      return if outcome.Dies? then Crashed else Error;
    }

    method WriteProbe(config: ListenerConfig) returns (s: Status)
      modifies `clock, `unit, `probe
      ensures Moved(old(unit), unit, file)
      ensures s != Rejected
      ensures AllCalm(script) ==> s == Fine && unit == old(unit)
    {
      var outcome := Step();
      if probe == Whole(config) && !outcome.Dies? { return Fine; }
      if outcome == Works { probe := Whole(config); return Fine; }
      match outcome.extent {
        case NotAtAll =>
        case Partly => probe := Torn;
        case Wholly => probe := Whole(config);
      }
      return if outcome.Dies? then Crashed else Error;
    }

    /** Records the fingerprint, which stands for the configuration; a cut fingerprint equals none. */
    method WriteMarker(config: ListenerConfig) returns (s: Status)
      requires ServesOnly(Now(), config)
      modifies `clock, `unit, `marker
      ensures ServesOnly(Now(), config) && (Sound(old(Now())) ==> Sound(Now()))
      ensures s == Fine ==> marker == Whole(config)
      ensures s != Rejected
      ensures AllCalm(script) ==> s == Fine && unit == old(unit)
    {
      var outcome := Step();
      if marker == Whole(config) && !outcome.Dies? { return Fine; }
      if outcome == Works { marker := Whole(config); return Fine; }
      match outcome.extent {
        case NotAtAll =>
        case Partly => marker := Torn;
        case Wholly => marker := Whole(config);
      }
      return if outcome.Dies? then Crashed else Error;
    }

    method RemoveMarker() returns (s: Status)
      modifies `clock, `unit, `marker
      ensures marker == old(marker) || marker == Absent
      ensures s == Fine ==> marker == Absent
      ensures s != Rejected
      ensures AllCalm(script) ==> s == Fine
      ensures Moved(old(unit), unit, file)
    {
      var outcome := Step();
      if outcome == Works || outcome.extent == Wholly { marker := Absent; }
      s := match outcome case Works => Fine case Fails(_) => Error case Dies(_) => Crashed;
    }

    /** Asks the supervisor, and reads the marker of a unit that is running. */
    method Applied() returns (s: Status, applied: File, seen: UnitState)
      requires Sound(Now())
      modifies `clock, `unit
      ensures Sound(Now())
      ensures s == Fine && applied.Whole? ==> applied == marker && seen == Up(applied.config)
      ensures s != Rejected
      ensures AllCalm(script) ==> s == Fine && unit == old(unit) == seen && (unit.Up? ==> applied == marker)
    {
      var shown := Step();
      seen := unit;
      if shown.Dies? { return Crashed, Absent, seen; }
      if shown.Fails? { return Error, Absent, seen; }
      if !seen.Up? { return Fine, Absent, seen; }
      var read := Step();
      if read.Dies? { return Crashed, Absent, seen; }
      if read.Fails? { return Error, Absent, seen; }
      return Fine, marker, seen;
    }

    /** "Not loaded" is success; any other failure means the listener may still be up. */
    method StopListener() returns (s: Status)
      modifies `clock, `unit
      ensures s == Fine ==> unit == Gone
      ensures s != Rejected && (script(old(clock)).outcome == Works ==> s == Fine)
      ensures Moved(old(unit), unit, file)
      ensures AllCalm(script) ==> s == Fine
    {
      var outcome := Step();
      if unit == Gone && !outcome.Dies? { return Fine; }
      if outcome == Works || outcome.extent == Wholly { unit := Gone; }
      s := match outcome case Works => Fine case Fails(_) => Error case Dies(_) => Crashed;
    }

    /** The job being accepted says nothing of the process surviving. */
    method StartListener() returns (s: Status)
      requires unit == Gone && file.Whole?
      modifies `clock, `unit
      ensures ServesOnly(Now(), file.config)
      ensures s != Rejected
      ensures AllCalm(script) ==> s == Fine && unit == Up(file.config)
    {
      var outcome := Step();
      if outcome == Works || outcome.extent != NotAtAll {
        unit := if outcome.Fails? && outcome.extent == Partly then Looping else Up(file.config);
      }
      s := match outcome case Works => Fine case Fails(_) => Error case Dies(_) => Crashed;
    }

    /** Watches for a while: every look has to find the unit neither restarting nor gone. */
    method ConfirmRunning(ghost config: ListenerConfig) returns (s: Status, seen: UnitState)
      requires ServesOnly(Now(), config)
      modifies `clock, `unit
      ensures ServesOnly(Now(), config)
      ensures s == Fine ==> Staying(seen, config)
      ensures s != Rejected
      ensures AllCalm(script) && old(unit).Up? ==> s == Fine && seen == unit == old(unit)
    {
      seen := Gone;
      for attempt := 0 to 8
        invariant ServesOnly(Now(), config) && file == old(file)
        invariant attempt > 0 ==> Staying(seen, config)
        invariant AllCalm(script) ==> unit == old(unit) && (attempt > 0 ==> seen == unit)
      {
        var shown := Step();
        seen := unit;
        if shown.Dies? { return Crashed, seen; }
        if shown.Fails? || seen == Gone || seen == Looping { return Error, seen; }
      }
      return Fine, seen;
    }

    // ---- Apply ----

    method Disable() returns (s: Status)
      requires Sound(Now())
      modifies `clock, `unit, `file, `probe, `marker
      ensures Sound(Now())
      ensures s == Fine ==> Cleared(Now())
      ensures s != Rejected
      ensures AllCalm(script) ==> s == Fine
    {
      s := StopListener();
      if s != Fine { return; }
      for leftover := 0 to 3
        invariant s == Fine && unit == Gone
        invariant leftover > 0 ==> file == Absent
        invariant leftover > 1 ==> probe == Absent
        invariant leftover > 2 ==> marker == Absent
      {
        var outcome := Step();
        if outcome == Works || outcome.extent == Wholly {
          if leftover == 0 { file := Absent; } else if leftover == 1 { probe := Absent; } else { marker := Absent; }
        }
        if outcome.Dies? { return Crashed; }
        if outcome.Fails? { return Error; }
      }
    }

    /** Has the rendered configuration checked; a rejected one stops the listener. */
    method Check(config: ListenerConfig) returns (s: Status)
      requires Sound(Now())
      modifies `clock, `unit
      ensures Sound(Now())
      ensures s == Rejected ==> unit == Gone
      ensures script(old(clock)).outcome.Fails? && script(old(clock) + 1).outcome == Works ==> s == Rejected
      ensures AllCalm(script) ==> s == Fine
    {
      var checked := Step();
      if checked.Dies? { return Crashed; }
      if checked.Fails? {
        s := StopListener();
        if s == Fine { s := Rejected; }
      } else {
        s := Fine;
      }
    }

    /** The probe goes on the way out, and nobody asks whether it did. */
    method RemoveProbe(s: Status) returns (r: Status)
      requires Sound(Now())
      modifies `clock, `unit, `probe
      ensures Sound(Now()) && Moved(old(unit), unit, file)
      ensures r == s || r == Crashed
      ensures AllCalm(script) ==> r == s && unit == old(unit) && probe == Absent
    {
      var outcome := Step();
      if outcome == Works || outcome.extent == Wholly { probe := Absent; }
      r := if outcome.Dies? then Crashed else s;
    }

    /** Replaces the process: the marker goes before the file changes, and comes back only once the
    new process has been seen to stay up. */
    method Replace(config: ListenerConfig) returns (s: Status, seen: UnitState)
      requires Sound(Now())
      modifies `clock, `unit, `file, `marker
      ensures Sound(Now())
      ensures s == Fine ==> ServesOnly(Now(), config) && marker == Whole(config) && Staying(seen, config)
      ensures s != Rejected
      ensures AllCalm(script) ==> s == Fine && unit == Up(config)
    {
      seen := Gone;
      s := RemoveMarker();
      if s != Fine { return; }
      s := WriteLive(config);
      if s != Fine { return; }
      s := StopListener();
      if s != Fine { return; }
      s := StartListener();
      if s != Fine { return; }
      s, seen := ConfirmRunning(config);
      if s != Fine { return; }
      s := WriteMarker(config);
    }

    /** Brings the listener to what the spec asks for, including asking for it to be gone. */
    method Apply(spec: RealitySpec) returns (s: Status, early: bool, seen: UnitState)
      requires Sound(Now())
      modifies `clock, `unit, `file, `probe, `marker
      ensures Sound(Now())
      ensures s == Fine && !spec.enabled ==> Cleared(Now())
      ensures s == Fine && spec.enabled ==>
        ConfigOf(spec).Ok? && ServesOnly(Now(), ConfigOf(spec).value) && Staying(seen, ConfigOf(spec).value)
      ensures early ==> s == Fine && spec.enabled && seen == Up(ConfigOf(spec).value)
      ensures s == Rejected ==> unit == Gone && file == old(file) && marker == old(marker)
      ensures AllCalm(script) && !spec.enabled ==> s == Fine
      ensures AllCalm(script) && spec.enabled && ConfigOf(spec).Ok? ==>
        && s == Fine && marker == Whole(ConfigOf(spec).value) && unit == Up(ConfigOf(spec).value)
        && (old(marker) == marker && old(unit) == unit ==> early) && (!early ==> probe == Absent)
    {
      hide ConfigOf;
      early, seen := false, Gone;
      if !spec.enabled {
        s := Disable();
        return;
      }
      var rendered := RenderRealityServerConfig(spec);
      if rendered.Err? { return Error, false, Gone; }
      var config := rendered.value;
      var applied: File;
      s, applied, seen := Applied();
      if s == Crashed { return; }
      if s == Fine && applied == Whole(config) {
        return Fine, true, seen;
      }
      s := WriteProbe(config);
      if s != Fine { return; }
      s := Check(config);
      if s == Fine { s, seen := Replace(config); }
      if s == Crashed { return; }
      s := RemoveProbe(s);
    }
  }

  // ------------------------------------------------------------------
  // Whole runs
  // ------------------------------------------------------------------

  datatype Entry = Entry(spec: RealitySpec, status: Status, early: bool, seen: UnitState, after: Snapshot)

  /** What the log of a run promises of one pass. */
  ghost predicate Honest(e: Entry) {
    && Sound(e.after)
    && (e.status == Fine && !e.spec.enabled ==> Cleared(e.after))
    && (e.status == Fine && e.spec.enabled ==>
          && ConfigOf(e.spec).Ok? && ServesOnly(e.after, ConfigOf(e.spec).value)
          && Staying(e.seen, ConfigOf(e.spec).value))
    && (e.early ==> e.status == Fine && e.spec.enabled && e.seen == Up(ConfigOf(e.spec).value))
    && (e.status == Rejected ==> e.after.unit == Gone)
  }

  /** Any sequence of revisions, A to B and back to A included, with the agent dying and the
  supervisor restarting anywhere: a pass that succeeds, by doing its work or by skipping it, did not
  see the process gone or waiting to be restarted, saw no other configuration running than what it
  rendered, and leaves nothing else being served; one that skips it saw that running; and a refused
  configuration leaves no listener admitting what the revision no longer does. */
  method History(script: nat -> Event, start: Snapshot, specs: seq<RealitySpec>) returns (log: seq<Entry>)
    requires Sound(start)
    ensures |log| == |specs|
    ensures forall i :: 0 <= i < |log| ==> log[i].spec == specs[i] && Honest(log[i])
  {
    hide ConfigOf, Sound, ServesOnly, Cleared;
    var hub := new RealityIngress(script, start);
    log := [];
    for i := 0 to |specs|
      invariant fresh(hub) && |log| == i && Sound(hub.Now())
      invariant forall k :: 0 <= k < i ==> log[k].spec == specs[k] && Honest(log[k])
    {
      var status, early, seen := hub.Apply(specs[i]);
      log := log + [Entry(specs[i], status, early, seen, Snapshot(hub.file, hub.probe, hub.marker, hub.unit))];
    }
  }

  /** Why the marker has to go before the file: were it still there once the new file is, one
  restart by the supervisor would make it name what no process serves. */
  lemma MarkerMustGoFirst(a: ListenerConfig, b: ListenerConfig, probe: File)
    requires a != b
    ensures Sound(Snapshot(Whole(a), probe, Whole(a), Up(a)))
    ensures !Sound(Snapshot(Whole(b), probe, Whole(a), Bumped(Up(a), Whole(b), Restarts)))
    ensures Bumped(Up(a), Whole(b), Restarts) == Up(b)
  {
  }
}
