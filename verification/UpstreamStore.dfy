/** The link file of a subscription and the last known good beside it.

Both files are replaced atomically, so a write that fails leaves the old content; every step may
also be cancelled before it takes effect, or be the last the process takes. */
module UpstreamStore {
  import opened Domain
  import opened Netip
  import opened Escaping
  import opened ShareLink
  import opened LinkRoundTrip
  import opened PublicEndpoint
  import opened SingBox
  import opened Subscription

  datatype Outcome = Works | Fails | Stops(effect: bool)

  predicate TakesEffect(outcome: Outcome) { outcome.Works? || (outcome.Stops? && outcome.effect) }

  datatype Files = Files(active: Option<string>, previous: Option<string>)

  /** Both files are there, and the older one holds a readable link. */
  ghost predicate Swappable(files: Files) {
    files.active.Some? && files.previous.Some? && ParseVLESS(TrimSpace(files.previous.value)).Some?
  }

  class UpstreamFile {
    const script: nat -> Outcome
    var clock: nat
    var active: Option<string>
    var previous: Option<string>

    ghost function Now(): Files reads this { Files(active, previous) }

    constructor (script: nat -> Outcome, files: Files)
      ensures this.script == script && Now() == files && clock == 0
    {
      this.script := script;
      clock, active, previous := 0, files.active, files.previous;
    }

    method Step() returns (outcome: Outcome)
      modifies `clock
      ensures outcome == script(old(clock)) && clock == old(clock) + 1
    {
      outcome := script(clock);
      clock := clock + 1;
    }

    /** Keeps the old link, then replaces it.  The old link can only be lost where it could not be read. */
    method Write(chosen: ProxyTunnel) returns (written: bool)
      modifies `clock, `active, `previous
      ensures active == old(active) || (RenderedLink(chosen).Some? && active == Some(StoredAs(chosen)))
      ensures previous == old(previous) || (old(active).Some? && previous == old(active))
      ensures written ==> RenderedLink(chosen).Some? && active == Some(StoredAs(chosen))
      ensures old(active).Some? && script(old(clock) + 1) != Fails && active != old(active) ==> previous == old(active)
      ensures script(old(clock) + 1) == Fails ==> previous == old(previous)
    {
      var created := Step();
      if !created.Works? { return false; }
      var read := Step();
      if read.Stops? { return false; }
      if read.Works? && active.Some? {
        var kept := Step();
        if TakesEffect(kept) { previous := active; }
        if !kept.Works? { return false; }
      }
      var link := RenderVLESS(chosen);
      if link.None? { return false; }
      var replaced := Step();
      if TakesEffect(replaced) { active := Some(link.value + "\n"); }
      return replaced.Works?;
    }

    /** Demotes the active link, then activates the older one; cut in between, both files hold the active link. */
    method Restore() returns (restored: Option<ProxyTunnel>)
      modifies `clock, `active, `previous
      ensures !Swappable(old(Now())) ==> restored.None? && Now() == old(Now())
      ensures restored.Some? ==> Now() == Files(old(previous), old(active))
      ensures restored.Some? ==> restored == ParseVLESS(TrimSpace(old(previous).value))
      ensures var at := old(clock);
        var reached := Swappable(old(Now())) && script(at).Works? && script(at + 1).Works?;
        Now() ==
          if !reached || !TakesEffect(script(at + 2)) then old(Now())
          else if script(at + 2).Works? && TakesEffect(script(at + 3)) then Files(old(previous), old(active))
          else Files(old(active), old(active))
    {
      hide ParseVLESS, TrimSpace;
      var older := Step();
      if !older.Works? || previous.None? { return None; }
      var demoted := previous.value;
      var parsed := ParseVLESS(TrimSpace(demoted));
      if parsed.None? { return None; }
      var read := Step();
      if !read.Works? || active.None? { return None; }
      var current := active.value;
      var first := Step();
      if TakesEffect(first) { previous := Some(current); }
      if !first.Works? { return None; }
      var second := Step();
      if TakesEffect(second) { active := Some(demoted); }
      if !second.Works? { return None; }
      return parsed;
    }
  }

  /** Both links are on disk. */
  predicate HoldsBoth(files: Files, one: Option<string>, other: Option<string>) {
    (files.active == one || files.previous == one) && (files.active == other || files.previous == other)
  }

  /** One restore: both links survive exactly unless it is cut between its two writes. */
  method RestoreOnce(script: nat -> Outcome, files: Files) returns (after: Files)
    requires Swappable(files) && files.active != files.previous
    ensures HoldsBoth(after, files.active, files.previous) <==>
      !(script(0).Works? && script(1).Works? && TakesEffect(script(2)) && !(script(2).Works? && TakesEffect(script(3))))
    ensures after.active == files.active || after.active == files.previous
  {
    hide Swappable;
    var file := new UpstreamFile(script, files);
    var restored := file.Restore();
    return Files(file.active, file.previous);
  }

  /** Restoring twice is going back to where one was. */
  method RestoreTwice(script: nat -> Outcome, files: Files)
    returns (after: Files, first: Option<ProxyTunnel>, second: Option<ProxyTunnel>)
    ensures first.Some? && second.Some? ==> after == files
    ensures first.Some? && second.Some? ==>
      files.active.Some? && second == ParseVLESS(TrimSpace(files.active.value))
  {
    hide ParseVLESS, TrimSpace;
    var file := new UpstreamFile(script, files);
    first := file.Restore();
    second := file.Restore();
    return Files(file.active, file.previous), first, second;
  }

  /** A refresh and the reconcile that follows: pin, prove, write, read back, pin again.  `proven` is
  what the canary ran and `deployed` what the reconciler runs. */
  method RefreshAndReconcile(script: nat -> Outcome, files: Files, link: string, atCanary: Option<seq<Addr>>,
      atReload: Option<seq<Addr>>)
    returns (proven: Option<BoxConfig>, written: bool, deployed: Option<BoxConfig>, stored: Files)
    requires IsBytes(link)
    ensures proven.Some? <==> ParseVLESS(link).Some? && Pinned(ParseVLESS(link).value, atCanary).Some?
    ensures proven.None? ==> stored == files
    ensures proven.Some? && written ==>
      && stored.active == Some(StoredAs(Pinned(ParseVLESS(link).value, atCanary).value))
      && (deployed == proven <==> !Encrypted(stored.active.value))
    ensures files.active.Some? && script(1) != Fails && stored.active != files.active ==>
      stored.previous == files.active
  {
    hide ParseVLESS, Pinned, ConfigFor, Encrypted, StoredAs, Loaded, LinkOf, RenderedLink;
    proven, written, deployed, stored := None, false, None, files;
    var parsed := ParseVLESS(link);
    if parsed.None? { return; }
    var pinned := PinPublicEndpoint(parsed.value, atCanary);
    if pinned.None? { return; }
    DeployedIsProven(link, parsed.value, atCanary, atReload);
    proven := RenderSingBoxConfig(pinned.value);
    var file := new UpstreamFile(script, files);
    written := file.Write(pinned.value);
    stored := Files(file.active, file.previous);
    var upstream := Load(stored.active, None, atReload);
    if upstream.Some? { deployed := RenderSingBoxConfig(upstream.value); }
  }
}
