/** Deploy and confirm.

An operator's deploy writes three files in order; an agent ticks on its own clock, between the
operator's steps as well, and rolls an unconfirmed deploy back.  Either may die in any step. */
module Deploy {
  import opened Domain

  datatype Revision = Revision(name: string, state: DesiredState)

  datatype Pending = Pending(revision: string, deadline: int)

  datatype Files = Files(desired: Option<Revision>, previous: Option<Revision>, pending: Option<Pending>)

  /** A write that failed may have replaced the file and failed to sync the directory afterwards. */
  datatype Outcome = Works | Fails(effect: bool) | Dies(effect: bool)

  /** One step: the tick the agent squeezes in before it, and how it ends. */
  datatype Event = Event(tick: Option<int>, outcome: Outcome)

  datatype Status = Fine | Error | Crashed

  function StatusOf(outcome: Outcome): Status {
    match outcome case Works => Fine case Fails(_) => Error case Dies(_) => Crashed
  }

  predicate TakesEffect(outcome: Outcome) { outcome.Works? || outcome.effect }

  /** So many steps from here on, nothing interferes and everything works. */
  ghost predicate Undisturbed(script: nat -> Event, from: nat, steps: nat) {
    forall n :: from <= n < from + steps ==> script(n) == Event(None, Works)
  }

  predicate Expired(files: Files, now: int) { files.pending.Some? && now > files.pending.value.deadline }

  /** The way back to d: a rollback would restore it, or nothing is pending and it is in force. */
  predicate Recoverable(files: Files, d: Revision) {
    files.desired.Some? && if files.pending.Some? then files.previous == Some(d) else files.desired == Some(d)
  }

  // ---- a tick, exactly ----

  /** What rolling back makes of the files: the desired state is restored first, then disarmed.  The
  agent's steps start at `at`. */
  function Rolled(agent: nat -> Outcome, at: nat, files: Files): Files {
    if agent(at) != Works || files.previous.None? then files
    else
      var restored := if TakesEffect(agent(at + 1)) then files.(desired := files.previous) else files;
      if agent(at + 1) == Works && TakesEffect(agent(at + 2)) then restored.(pending := None) else restored
  }

  /** It gets to the end, and when. */
  predicate RollsBack(agent: nat -> Outcome, at: nat, files: Files) {
    agent(at) == Works && files.previous.Some? && agent(at + 1) == Works && agent(at + 2) == Works
  }

  function RolledEnd(agent: nat -> Outcome, at: nat, files: Files): nat {
    if agent(at) != Works || files.previous.None? then at + 1 else if agent(at + 1) != Works then at + 2 else at + 3
  }

  /** What a tick makes of the files. */
  function TickFiles(agent: nat -> Outcome, at: nat, files: Files, now: int): Files {
    if agent(at) == Works && Expired(files, now) then Rolled(agent, at + 1, files) else files
  }

  /** How far converging on a desired state goes. */
  function ConvergeEnd(agent: nat -> Outcome, at: nat, desired: Option<Revision>): nat {
    if agent(at) != Works || desired.None? then at + 1 else at + 2
  }

  /** The agent's clock after a tick. */
  function TickEnd(agent: nat -> Outcome, at: nat, files: Files, now: int): nat {
    if agent(at) != Works then at + 1
    else if !Expired(files, now) then ConvergeEnd(agent, at + 1, files.desired)
    else if !RollsBack(agent, at + 1, files) then RolledEnd(agent, at + 1, files)
    else ConvergeEnd(agent, at + 4, files.previous)
  }

  /** What the operator's step finds, once the agent has or has not ticked before it. */
  function Met(e: Event, agent: nat -> Outcome, at: nat, files: Files): Files {
    if e.tick.None? then files else TickFiles(agent, at, files, e.tick.value)
  }

  function MetAt(e: Event, agent: nat -> Outcome, at: nat, files: Files): nat {
    if e.tick.None? then at else TickEnd(agent, at, files, e.tick.value)
  }

  /** The agent's steps of a tick that does all it has to. */
  predicate TickWorks(agent: nat -> Outcome, at: nat, files: Files, now: int) {
    agent(at) == Works &&
    if Expired(files, now) then RollsBack(agent, at + 1, files) && agent(at + 4) == Works && agent(at + 5) == Works
    else files.desired.Some? && agent(at + 1) == Works && agent(at + 2) == Works
  }

  // ---- a deploy, from any files ----

  /** The save, after the tick before it. */
  function Saved(e: Event, agent: nat -> Outcome, at: nat, files: Files, state: Revision): Files {
    var met := Met(e, agent, at, files);
    if TakesEffect(e.outcome) then met.(desired := Some(state)) else met
  }

  /** The disarming, after the tick before it. */
  function Cleared(e: Event, agent: nat -> Outcome, at: nat, files: Files): Files {
    var met := Met(e, agent, at, files);
    if TakesEffect(e.outcome) then met.(pending := None) else met
  }

  /** What the snapshot is taken of: the files as the first step of an arming deploy finds them. */
  function FirstMet(script: nat -> Event, agent: nat -> Outcome, from: nat, at: nat, files: Files): Files {
    Met(script(from), agent, at, files)
  }

  /** The files once a deploy is armed. */
  function ArmedFrom(script: nat -> Event, agent: nat -> Outcome, from: nat, at: nat, files: Files,
      pending: Pending): Files {
    var loaded, one := FirstMet(script, agent, from, at, files), MetAt(script(from), agent, at, files);
    var snapped := Met(script(from + 1), agent, one, loaded).(previous := loaded.desired);
    var two := MetAt(script(from + 1), agent, one, loaded);
    Met(script(from + 2), agent, two, snapped).(pending := Some(pending))
  }

  /** And the agent's clock by then. */
  function ArmedBy(script: nat -> Event, agent: nat -> Outcome, from: nat, at: nat, files: Files): nat {
    var loaded, one := FirstMet(script, agent, from, at, files), MetAt(script(from), agent, at, files);
    var snapped := Met(script(from + 1), agent, one, loaded).(previous := loaded.desired);
    var two := MetAt(script(from + 1), agent, one, loaded);
    MetAt(script(from + 2), agent, two, snapped)
  }

  // ---- when the way back is lost ----

  /** The first three steps of an operator's deploy work. */
  predicate Arms(script: nat -> Event, from: nat) {
    script(from).outcome == Works && script(from + 1).outcome == Works && script(from + 2).outcome == Works
  }

  /** The agent's clock once a deploy is armed, none having been pending. */
  function ArmedAt(script: nat -> Event, agent: nat -> Outcome, from: nat, at: nat, files: Files): nat {
    var one := MetAt(script(from), agent, at, files);
    var two := MetAt(script(from + 1), agent, one, files);
    MetAt(script(from + 2), agent, two, files)
  }

  /** The files once a deploy is armed. */
  function ArmedFiles(files: Files, pending: Pending): Files { Files(files.desired, files.desired, Some(pending)) }

  /** The agent rolled the armed deploy back before it was saved, so that nothing is pending any more. */
  predicate RolledBackFirst(script: nat -> Event, agent: nat -> Outcome, from: nat, at: nat, armed: Files) {
    Met(script(from + 3), agent, at, armed).pending.None?
  }

  /** The save replaced the file and still reported failure, and the disarming that followed removed
  the pending file, the agent not having restored the snapshot in between. */
  predicate DisarmedLate(script: nat -> Event, agent: nat -> Outcome, from: nat, at: nat, armed: Files) {
    var saved, cleared := script(from + 3), script(from + 4);
    && saved.outcome == Fails(true) && TakesEffect(cleared.outcome)
    && !Restores(cleared, agent, MetAt(saved, agent, at, armed), armed)
  }

  /** The tick before this step gets as far as restoring the snapshot. */
  predicate Restores(e: Event, agent: nat -> Outcome, at: nat, files: Files) {
    && e.tick.Some? && Expired(files, e.tick.value)
    && agent(at) == Works && agent(at + 1) == Works && TakesEffect(agent(at + 2))
  }

  /** A deploy from these files, begun with the clocks at `from` and `at`, leaves the new state desired
  and nothing pending. */
  predicate LosesWayBack(script: nat -> Event, agent: nat -> Outcome, from: nat, at: nat, files: Files,
      pending: Pending)
  {
    var then_, armed := ArmedAt(script, agent, from, at, files), ArmedFiles(files, pending);
    && Arms(script, from)
    && if RolledBackFirst(script, agent, from, then_, armed) then TakesEffect(script(from + 3).outcome)
       else DisarmedLate(script, agent, from, then_, armed)
  }

  // ---- what each operation may do to the files ----

  /** A tick touches them only to restore the snapshot of an expired deploy, the desired state first. */
  predicate Ticked(before: Files, after: Files, now: int) {
    || after == before
    || (Expired(before, now) && before.previous.Some?
        && (after == before.(desired := before.previous)
             || after == before.(desired := before.previous, pending := None)))
  }

  class Host {
    const script: nat -> Event       // the operator's steps
    const agent: nat -> Outcome      // the agent's own
    var clock: nat
    var agentClock: nat
    var desired: Option<Revision>
    var previous: Option<Revision>
    var pending: Option<Pending>
    var active: Option<Revision>    // what the last successful pass converged on
    var applied: string             // the agent's memory of what it announced

    ghost function Now(): Files reads this { Files(desired, previous, pending) }

    constructor (script: nat -> Event, agent: nat -> Outcome, files: Files)
      ensures this.script == script && this.agent == agent && Now() == files && clock == 0 && agentClock == 0
    {
      this.script, this.agent := script, agent;
      clock, agentClock, active, applied := 0, 0, None, "";
      desired, previous, pending := files.desired, files.previous, files.pending;
    }

    // ---- the agent ----

    method AgentStep() returns (outcome: Outcome)
      modifies `agentClock
      ensures outcome == agent(old(agentClock)) && agentClock == old(agentClock) + 1
    {
      outcome := agent(agentClock);
      agentClock := agentClock + 1;
    }

    /** Clears the pending confirmation; a file that is not there is as good as removed. */
    method RemovePending() returns (s: Status)
      modifies `agentClock, `pending
      ensures agentClock == old(agentClock) + 1
      ensures pending == if TakesEffect(agent(old(agentClock))) then None else old(pending)
      ensures s == Fine ==> pending == None
      ensures old(pending).Some? ==> s == StatusOf(agent(old(agentClock)))
    {
      var outcome := AgentStep();
      if pending.None? && !outcome.Dies? { return Fine; }
      if TakesEffect(outcome) { pending := None; }
      return StatusOf(outcome);
    }

    /** Restores the snapshot, then disarms; cut in between, the next tick does both again. */
    method Rollback(ghost now: int) returns (s: Status)
      requires Expired(Now(), now)
      modifies `agentClock, `desired, `pending
      ensures Ticked(old(Now()), Now(), now)
      ensures Now() == Rolled(agent, old(agentClock), old(Now()))
      ensures agentClock == RolledEnd(agent, old(agentClock), old(Now()))
      ensures s == Fine <==> RollsBack(agent, old(agentClock), old(Now()))
      ensures s == Fine ==> desired == old(previous) && pending == None
    {
      var read := AgentStep();
      if read != Works || previous.None? { return if read.Dies? then Crashed else Error; }
      var written := AgentStep();
      if TakesEffect(written) { desired := previous; }
      if written != Works { return StatusOf(written); }
      s := RemovePending();
    }

    /** One tick: roll back what expired, then converge on what is desired. */
    method Tick(now: int) returns (s: Status)
      modifies `agentClock, `desired, `pending, `active, `applied
      ensures Ticked(old(Now()), Now(), now)
      ensures Now() == TickFiles(agent, old(agentClock), old(Now()), now)
      ensures agentClock == TickEnd(agent, old(agentClock), old(Now()), now)
      ensures s == Fine <==> TickWorks(agent, old(agentClock), old(Now()), now)
      ensures s != Fine ==> active == old(active)
      ensures s == Fine ==> !Expired(Now(), now) && desired.Some? && active == desired && applied == desired.value.name
      ensures s == Fine && Expired(old(Now()), now) ==> desired == old(previous) && pending == None
    {
      var looked := AgentStep();
      if looked != Works { applied := ""; return StatusOf(looked); }
      if pending.Some? && now > pending.value.deadline {
        s := Rollback(now);
        applied := "";
        if s != Fine { return; }
      }
      var loaded := AgentStep();
      if loaded != Works || desired.None? {
        applied := if loaded.Dies? then "" else applied;
        return if loaded.Dies? then Crashed else Error;
      }
      var converged := AgentStep();
      if converged != Works { applied := ""; return StatusOf(converged); }
      active := desired;
      if applied != desired.value.name { applied := desired.value.name; }
      return Fine;
    }

    // ---- the operator ----

    method OperatorStep() returns (outcome: Outcome)
      modifies `clock, `agentClock, `desired, `pending, `active, `applied
      ensures previous == old(previous) && Settles(old(Now()), Now())
      ensures outcome == script(old(clock)).outcome
      ensures clock == old(clock) + 1
      ensures Now() == Met(script(old(clock)), agent, old(agentClock), old(Now()))
      ensures agentClock == MetAt(script(old(clock)), agent, old(agentClock), old(Now()))
    {
      var e := script(clock);
      clock := clock + 1;
      if e.tick.Some? {
        var s := Tick(e.tick.value);
      }
      return e.outcome;
    }

    method Confirm() returns (s: Status)
      modifies `clock, `agentClock, `desired, `pending, `active, `applied
      ensures previous == old(previous) && Settles(old(Now()), Now())
      ensures s == Fine ==> pending == None
      ensures Undisturbed(script, old(clock), 1) ==> s == Fine && Now() == Files(old(desired), old(previous), None)
      ensures Now() == Cleared(script(old(clock)), agent, old(agentClock), old(Now())) && clock == old(clock) + 1
      ensures var met := Met(script(old(clock)), agent, old(agentClock), old(Now()));
        s == if met.pending.None? && !script(old(clock)).outcome.Dies? then Fine
          else StatusOf(script(old(clock)).outcome)
    {
      var outcome := OperatorStep();
      if pending.None? && !outcome.Dies? { return Fine; }
      if TakesEffect(outcome) { pending := None; }
      return StatusOf(outcome);
    }

    /** Snapshots what is desired and sets the deadline, in that order. */
    method Arm(within: int, revision: string, now: int) returns (s: Status, armed: bool)
      modifies `clock, `agentClock, `desired, `previous, `pending, `active, `applied
      ensures previous == old(previous) || previous == old(desired)
      ensures old(desired).Some? && Undisturbed(script, old(clock), 3) ==>
        && s == Fine && armed && clock == old(clock) + 3
        && Now() == Files(old(desired), old(desired), Some(Pending(revision, now + within)))
      ensures var loaded := FirstMet(script, agent, old(clock), old(agentClock), old(Now()));
        && (s == Fine && !armed <==> script(old(clock)).outcome == Works && loaded.desired.None?)
        && (s == Fine && !armed ==>
              && Now() == loaded && clock == old(clock) + 1
              && agentClock == MetAt(script(old(clock)), agent, old(agentClock), old(Now())))
        && (script(old(clock)).outcome != Works ==> Now() == loaded)
        && (s == Fine && armed <==> Arms(script, old(clock)) && loaded.desired.Some?)
        && (s == Fine && armed ==>
              && clock == old(clock) + 3
              && Now() == ArmedFrom(script, agent, old(clock), old(agentClock), old(Now()),
                                    Pending(revision, now + within))
              && agentClock == ArmedBy(script, agent, old(clock), old(agentClock), old(Now())))
      ensures desired == old(desired) || desired == old(previous)
      ensures old(desired).Some? && old(pending).None? ==>
        && (s == Fine <==> Arms(script, old(clock))) && desired == old(desired)
        && (pending == None || (pending == Some(Pending(revision, now + within)) && previous == old(desired)))
        && (s == Fine ==>
              && armed && clock == old(clock) + 3
              && Now() == ArmedFiles(old(Now()), Pending(revision, now + within))
              && agentClock == ArmedAt(script, agent, old(clock), old(agentClock), old(Now())))
    {
      var loaded := OperatorStep();
      if loaded != Works { return StatusOf(loaded), false; }
      if desired.None? { return Fine, false; }
      var current := desired;
      var snapped := OperatorStep();
      if TakesEffect(snapped) { previous := current; }
      if snapped != Works { return StatusOf(snapped), false; }
      var written := OperatorStep();
      if TakesEffect(written) { pending := Some(Pending(revision, now + within)); }
      return StatusOf(written), true;
    }

    /** Saves; a failure disarms what was armed. */
    method Save(state: Revision, armed: bool) returns (s: Status)
      modifies `clock, `agentClock, `desired, `pending, `active, `applied
      ensures previous == old(previous)
      ensures s == Fine <==> script(old(clock)).outcome == Works
      ensures !armed || s == Fine ==> s == StatusOf(script(old(clock)).outcome) && clock == old(clock) + 1
      ensures var saving := script(old(clock));
        var saved := Saved(saving, agent, old(agentClock), old(Now()), state);
        Now() == if saving.outcome.Fails? && armed
          then Cleared(script(old(clock) + 1), agent, MetAt(saving, agent, old(agentClock), old(Now())), saved)
          else saved
    {
      var saved := OperatorStep();
      if TakesEffect(saved) { desired := Some(state); }
      if saved == Works { return Fine; }
      if saved.Dies? { return Crashed; }
      if armed {
        var cleared := Confirm();
        if cleared == Crashed { return Crashed; }
      }
      return Error;
    }

    /** Arms first, then saves; a save that fails disarms again.  The way back is lost just when the
    agent had rolled the deploy back before it was saved, or the save took effect while reporting
    failure and the disarming went through. */
    method Apply(state: Revision, within: int, now: int) returns (s: Status, armed: bool)
      modifies `clock, `agentClock, `desired, `previous, `pending, `active, `applied
      ensures previous == old(previous) || (within > 0 && previous == old(desired))
      ensures s == Fine ==> desired == Some(state)
      ensures within <= 0 ==>
        && !armed && s == StatusOf(script(old(clock)).outcome) && clock == old(clock) + 1
        && Now() == Saved(script(old(clock)), agent, old(agentClock), old(Now()), state)
      ensures within > 0 ==>
        var loaded := FirstMet(script, agent, old(clock), old(agentClock), old(Now()));
        var one := MetAt(script(old(clock)), agent, old(agentClock), old(Now()));
        if script(old(clock)).outcome == Works && loaded.desired.None? then
          && !armed && s == StatusOf(script(old(clock) + 1).outcome) && clock == old(clock) + 2
          && Now() == Saved(script(old(clock) + 1), agent, one, loaded, state)
        else if !Arms(script, old(clock)) then
          && s != Fine && (desired == old(desired) || desired == old(previous))
          && (script(old(clock)).outcome != Works ==> Now() == loaded)
        else
          var saving, files := script(old(clock) + 3),
            ArmedFrom(script, agent, old(clock), old(agentClock), old(Now()), Pending(state.name, now + within));
          var at := ArmedBy(script, agent, old(clock), old(agentClock), old(Now()));
          var saved := Saved(saving, agent, at, files, state);
          && armed && (s == Fine <==> saving.outcome == Works)
          && Now() == if saving.outcome.Fails?
               then Cleared(script(old(clock) + 4), agent, MetAt(saving, agent, at, files), saved)
                      else saved
      ensures within > 0 && old(desired).Some? && old(pending).None? ==>
        var limit := Pending(state.name, now + within);
        var lost := LosesWayBack(script, agent, old(clock), old(agentClock), old(Now()), limit);
        && (Recoverable(Now(), old(desired).value) <==> Some(state) == old(desired) || !lost)
        && (pending.Some? ==> pending == Some(limit))
        && (s == Fine ==> armed && desired == Some(state) && (pending.None? <==> lost) && clock == old(clock) + 4)
        && (lost ==> desired == Some(state) && pending.None?)
    {
      armed := false;
      if within > 0 {
        s, armed := Arm(within, state.name, now);
        if s != Fine { return; }
      }
      s := Save(state, armed);
    }
  }

  /** Over an interleaved tick, the files move only towards the snapshot. */
  predicate Settles(before: Files, after: Files) {
    && after.previous == before.previous
    && (after.desired == before.desired || after.desired == before.previous)
    && (after.pending == before.pending || after.pending == None)
  }

  lemma TickKeepsWayBack(before: Files, after: Files, now: int, d: Revision)
    requires Recoverable(before, d) && Ticked(before, after, now)
    ensures Recoverable(after, d)
    ensures Expired(before, now) && after.pending == None ==> after.desired == Some(d)
  {
  }

  // ------------------------------------------------------------------
  // Whole runs
  // ------------------------------------------------------------------

  datatype Entry = Entry(now: int, status: Status, files: Files, active: Option<Revision>)

  /** A deploy that is armed, cut short anywhere or not at all, and never confirmed: whatever the
  ticks after it meet, the way back to the state before it stays open, and the first tick past the
  deadline that succeeds ends with that state desired, active and nothing pending. */
  method UnconfirmedDeploy(script: nat -> Event, agent: nat -> Outcome, before: Revision, snapshot: Option<Revision>,
      state: Revision, within: int, now: int, ticks: seq<int>)
    returns (deployed: Status, log: seq<Entry>)
    requires within > 0
    requires state == before ||
      !LosesWayBack(script, agent, 0, 0, Files(Some(before), snapshot, None), Pending(state.name, now + within))
    ensures |log| == |ticks|
    ensures forall i :: 0 <= i < |log| ==>
      && log[i].now == ticks[i] && Recoverable(log[i].files, before)
      && (log[i].status == Fine && ticks[i] > now + within ==>
            log[i].files.desired == Some(before) && log[i].files.pending == None && log[i].active == Some(before))
  {
    hide Ticked;
    var host := new Host(script, agent, Files(Some(before), snapshot, None));
    var armed: bool;
    deployed, armed := host.Apply(state, within, now);
    log := [];
    for i := 0 to |ticks|
      invariant fresh(host) && |log| == i && Recoverable(host.Now(), before)
      invariant host.pending.Some? ==> host.pending.value.deadline == now + within
      invariant forall k :: 0 <= k < i ==>
        && log[k].now == ticks[k] && Recoverable(log[k].files, before)
        && (log[k].status == Fine && ticks[k] > now + within ==>
              log[k].files.desired == Some(before) && log[k].files.pending == None && log[k].active == Some(before))
    {
      ghost var w := host.Now();
      var s := host.Tick(ticks[i]);
      TickKeepsWayBack(w, host.Now(), ticks[i], before);
      TickKeepsDeadline(w, host.Now(), ticks[i]);
      log := log + [Entry(ticks[i], s, Files(host.desired, host.previous, host.pending), host.active)];
    }
  }

  lemma TickKeepsDeadline(before: Files, after: Files, now: int)
    requires Ticked(before, after, now)
    ensures after.pending == before.pending || after.pending == None
    ensures before.pending == None ==> after == before
  {
  }

  /** A deploy that was confirmed in time stays, whatever the ticks before and after meet. */
  method ConfirmedDeploy(script: nat -> Event, agent: nat -> Outcome, before: Revision, snapshot: Option<Revision>,
      state: Revision, within: int, now: int, ticks: seq<int>)
    returns (deployed: Status, confirmed: Status, log: seq<Entry>)
    requires within > 0 && (script(4).tick.Some? ==> script(4).tick.value <= now + within)
    ensures deployed == Fine && confirmed == Fine ==>
      forall i :: 0 <= i < |log| ==> log[i].files.desired == Some(state) && log[i].files.pending == None
  {
    hide Ticked;
    var host := new Host(script, agent, Files(Some(before), snapshot, None));
    var armed: bool;
    deployed, armed := host.Apply(state, within, now);
    confirmed := host.Confirm();
    log := [];
    for i := 0 to |ticks|
      invariant fresh(host)
      invariant deployed == Fine && confirmed == Fine ==> host.desired == Some(state) && host.pending == None
      invariant deployed == Fine && confirmed == Fine ==>
        forall k :: 0 <= k < |log| ==> log[k].files.desired == Some(state) && log[k].files.pending == None
    {
      ghost var w := host.Now();
      var s := host.Tick(ticks[i]);
      TickKeepsDeadline(w, host.Now(), ticks[i]);
      log := log + [Entry(ticks[i], s, Files(host.desired, host.previous, host.pending), host.active)];
    }
  }

  /** Whether the way back survives a deploy, whatever its steps and the agent's meet: it is lost just
  when the save took effect after the agent had rolled the armed deploy back, or when it took effect
  and still failed, as when the directory cannot be synced, and the disarming that followed removed
  the pending file.  The new state stays then, reported as deployed and armed in the first case. */
  method WayBackIff(script: nat -> Event, agent: nat -> Outcome, before: Revision, snapshot: Option<Revision>,
      state: Revision, within: int, now: int)
    returns (s: Status, armed: bool, files: Files)
    requires within > 0
    ensures var lost :=
        LosesWayBack(script, agent, 0, 0, Files(Some(before), snapshot, None), Pending(state.name, now + within));
      && (Recoverable(files, before) <==> state == before || !lost)
      && (lost ==> files.desired == Some(state) && files.pending == None)
      && (s == Fine ==> armed && (files.pending == None <==> lost))
  {
    var host := new Host(script, agent, Files(Some(before), snapshot, None));
    s, armed := host.Apply(state, within, now);
    files := Files(host.desired, host.previous, host.pending);
  }

  /** Every deploy, whatever the host starts from: success means the new state is desired.  One without a
  confirmation, and a first one, arm nothing and touch neither snapshot nor deadline, beyond what the
  agent's ticks do; and a save without effect leaves what the ticks gave. */
  method DeployFrom(script: nat -> Event, agent: nat -> Outcome, start: Files, state: Revision, within: int, now: int)
    returns (s: Status, armed: bool, files: Files)
    ensures s == Fine ==> files.desired == Some(state)
    ensures within <= 0 ==>
      && !armed && s == StatusOf(script(0).outcome)
      && files == Saved(script(0), agent, 0, start, state)
    ensures within > 0 && script(0).outcome == Works && FirstMet(script, agent, 0, 0, start).desired.None? ==>
      && !armed && s == StatusOf(script(1).outcome)
      && files == Saved(script(1), agent, MetAt(script(0), agent, 0, start),
           FirstMet(script, agent, 0, 0, start), state)
    ensures (forall n: nat :: script(n).tick.None?) && (within <= 0 || start.desired.None?) ==>
      files == start || files == start.(desired := Some(state))
  {
    var host := new Host(script, agent, start);
    s, armed := host.Apply(state, within, now);
    files := Files(host.desired, host.previous, host.pending);
  }

  /** With no tick past the deadline before its last two steps, only a save that fails late loses it. */
  lemma PromptLosesOnlyLate(script: nat -> Event, agent: nat -> Outcome, from: nat, at: nat, files: Files,
      pending: Pending)
    requires forall n :: from + 3 <= n <= from + 4 && script(n).tick.Some? ==> script(n).tick.value <= pending.deadline
    ensures LosesWayBack(script, agent, from, at, files, pending) <==>
      Arms(script, from) && script(from + 3).outcome == Fails(true) && TakesEffect(script(from + 4).outcome)
  {
    assert !RolledBackFirst(script, agent, from, ArmedAt(script, agent, from, at, files), ArmedFiles(files, pending));
  }

  /** Everything works, and the agent's tick comes past the deadline, just before the save. */
  function SlowSave(deadline: int): nat -> Event {
    n => Event(if n == 3 then Some(deadline + 1) else None, Works)
  }

  lemma SlowSaveLosesIt(files: Files, pending: Pending)
    requires files.desired.Some? && files.pending.None?
    ensures LosesWayBack(SlowSave(pending.deadline), n => Works, 0, 0, files, pending)
  {
  }
}
