/** Compiling for the host: the fallback's key is settled first, because a fallback that cannot run
must neither stop the rest of the hub nor leave its port accepted with nothing behind it. */
module HostCompiler {
  import opened Ordering
  import opened Domain
  import opened FirewallPlanner
  import opened Validation
  import opened Revision
  import opened EgressPlanner
  import opened DnsPlanner
  import opened Compiler
  import opened Keys
  import opened IngressPlanner
  import opened PolicySets
  import opened KillSwitch
  import opened Fallback

  /** Cryptography outside this model: a key's public half, the listener's short id, a device's credential. */
  datatype Crypto = Crypto(publicKey: string -> string, shortId: string -> string,
      uuid: (string, string, string) -> string)

  /** The key files of a host, None where one cannot be read, and what is computed from keys. */
  datatype KeyStore = KeyStore(hubKey: Option<string>, realityKey: Option<string>, crypto: Crypto)

  /** What a pass applies, and whether the fallback's failure is to be reported. */
  datatype Built = Built(compiled: Compiled, ingress: IngressSpec, reality: RealitySpec, fallbackFails: bool)

  function WithoutFallback(state: DesiredState): DesiredState { state.(hub := state.hub.(realityEnabled := false)) }

  function HubKey(keys: KeyStore): Option<string> { KeyIn(keys.hubKey, (s: string) => IsKey(s)) }

  function FallbackKey(keys: KeyStore): Option<string> { KeyIn(keys.realityKey, (s: string) => IsUrlKey(s)) }

  /** The revision as far as it can run: without the fallback when its key cannot be used. */
  function Runnable(state: DesiredState, keys: KeyStore): DesiredState {
    if state.hub.realityEnabled && FallbackKey(keys).None? then WithoutFallback(state) else state
  }

  /** The host holds the private half of the key the configuration gave to the clients. */
  predicate HubKeyFits(hub: Hub, keys: KeyStore) {
    HubKey(keys).Some? && keys.crypto.publicKey(HubKey(keys).value) == hub.serverPublicKey
  }

  function CredentialsFrom(key: string, crypto: Crypto): Credentials {
    Credentials(key, crypto.shortId(key), (id: string, publicKey: string) => crypto.uuid(key, id, publicKey))
  }

  /** Neither the policy nor the ingress meets an error. */
  ghost predicate HostCompiles(state: DesiredState, uplink: string, upstreams: set<string>, keys: KeyStore) {
    && CompiledOf(state, uplink, upstreams).Ok?
    && HubKey(keys).Some? && IngressSpecOf(state, HubKey(keys).value, keys.crypto.publicKey).Ok?
  }

  /** The first thing that stops a compilation which something stops: the plan, the hub's key, the ingress,
  then the layout and DNS. */
  ghost function Failure(state: DesiredState, uplink: string, upstreams: set<string>, keys: KeyStore): Error
    requires !HostCompiles(Runnable(state, keys), uplink, upstreams, keys)
  {
    var runnable := Runnable(state, keys);
    if PlanOf(runnable, uplink).Err? then PlanOf(runnable, uplink).error
    else if HubKey(keys).None? then HubKeyUnusable
    else if IngressSpecOf(runnable, HubKey(keys).value, keys.crypto.publicKey).Err? then
      IngressSpecOf(runnable, HubKey(keys).value, keys.crypto.publicKey).error
    else CompiledOf(runnable, uplink, upstreams).error
  }

  /** The whole compilation of a pass, in order.  The fallback's key never stops the rest, and its port is
  accepted just when there is a listener to put behind it, whatever its key file holds. */
  method CompileHost(state: DesiredState, uplink: string, upstreams: set<string>, keys: KeyStore)
    returns (r: Result<Built>)
    ensures r.Ok? <==> HostCompiles(state, uplink, upstreams, keys)
    ensures r.Ok? <==> HostCompiles(Runnable(state, keys), uplink, upstreams, keys)
    ensures r.Err? ==> r.error == Failure(state, uplink, upstreams, keys)
    ensures r.Ok? ==>
      && CompiledOf(Runnable(state, keys), uplink, upstreams) == Ok(r.value.compiled)
      && IngressSpecOf(state, HubKey(keys).value, keys.crypto.publicKey) == Ok(r.value.ingress)
    ensures r.Ok? && ValidRevision(state) ==>
      && (r.value.compiled.plan.realityPort != 0 <==> r.value.reality.enabled)
      && (r.value.reality.enabled <==> state.hub.realityEnabled && FallbackKey(keys).Some?)
      && (r.value.fallbackFails <==> state.hub.realityEnabled && FallbackKey(keys).None?)
      && (r.value.reality.enabled ==>
            RealitySpecOf(state, r.value.compiled.plan, CredentialsFrom(FallbackKey(keys).value, keys.crypto))
              == Ok(r.value.reality))
  {
    hide CompiledOf, RealitySpecOf, ValidRevision, IngressSpecOf, PlanOf, IsKey, IsUrlKey, KeyIn;
    var runnable, fails, fallbackKey := state, false, "";
    if state.hub.realityEnabled {
      var read := ReadKey(keys.realityKey, (s: string) => IsUrlKey(s));
      if read.None? {
        runnable := runnable.(hub := runnable.hub.(realityEnabled := false));
        fails := true;
      } else {
        fallbackKey := read.value;
      }
    }
    FallbackIsApart(state, uplink, upstreams);
    NoPlanNoResult(runnable, uplink, upstreams);
    IngressIsApart(state, keys);
    var plan :- BuildFirewallPlan(runnable, uplink);
    var hubKey := ReadKey(keys.hubKey, (s: string) => IsKey(s));
    if hubKey.None? { return Err(HubKeyUnusable); }
    var ingress :- BuildIngressSpec(runnable, hubKey.value, keys.crypto.publicKey);
    var compiled :- Complete(runnable, uplink, plan, upstreams);
    var credentials := CredentialsFrom(fallbackKey, keys.crypto);
    var spec := BuildRealityIngressSpec(runnable, compiled.plan, credentials);
    PortIs(runnable, uplink, upstreams, compiled);
    SpecIs(state, uplink, upstreams, keys, compiled, credentials);
    var reality := NO_LISTENER;
    if spec.Ok? { reality := spec.value; } else { fails := true; }
    return Ok(Built(compiled, ingress, reality, fails));
  }

  lemma NoPlanNoResult(state: DesiredState, uplink: string, upstreams: set<string>)
    ensures PlanOf(state, uplink).Err? ==> CompiledOf(state, uplink, upstreams) == Err(PlanOf(state, uplink).error)
  {
    hide PlanOf;
  }

  lemma IngressIsApart(state: DesiredState, keys: KeyStore)
    ensures forall key ::
      IngressSpecOf(Runnable(state, keys), key, keys.crypto.publicKey) ==
      IngressSpecOf(state, key, keys.crypto.publicKey)
  {
    hide IsKey, KeyIn, PeersOf;
  }

  lemma PortIs(state: DesiredState, uplink: string, upstreams: set<string>, c: Compiled)
    requires CompiledOf(state, uplink, upstreams) == Ok(c)
    ensures c.plan.realityPort == if state.hub.realityEnabled then REALITY_PORT else 0
  {
    hide EgressGroups, InternalNetworks, DnsDestinationsOf, PortACLs, AddressBook, TunnelCount, AddressesParse;
    hide PlacementsOf, SpecsOf, ById, Endpoints, EndpointClients, DnsPlanOf;
  }

  lemma SpecIs(state: DesiredState, uplink: string, upstreams: set<string>, keys: KeyStore, c: Compiled,
      credentials: Credentials)
    requires CompiledOf(Runnable(state, keys), uplink, upstreams) == Ok(c)
    requires Runnable(state, keys).hub.realityEnabled ==>
      credentials == CredentialsFrom(FallbackKey(keys).value, keys.crypto)
    ensures ValidRevision(state) ==>
      && RealitySpecOf(Runnable(state, keys), c.plan, credentials).Ok?
      && (RealitySpecOf(Runnable(state, keys), c.plan, credentials).value.enabled <==>
           Runnable(state, keys).hub.realityEnabled)
  {
    hide CompiledOf, ValidRevision, IsUrlKey;
    if ValidRevision(state) {
      StaysValid(state);
      CompilesWhenValid(Runnable(state, keys), uplink, upstreams, c);
      SpecExists(Runnable(state, keys), uplink, upstreams, c, credentials);
    }
  }

  /** For a valid revision the ingress needs nothing but the key that fits. */
  lemma IngressExistsIff(state: DesiredState, keys: KeyStore)
    requires ValidRevision(state)
    ensures HubKey(keys).Some? && IngressSpecOf(state, HubKey(keys).value, keys.crypto.publicKey).Ok? <==>
      HubKeyFits(state.hub, keys)
  {
    hide IsKey, PeersOf, ValidDevices, ValidChoice;
    DevicesHaveKeys(state);
    KeyText(state.hub.serverPublicKey);
    if HubKey(keys).Some? { KeyText(HubKey(keys).value); }
  }

  lemma StaysValid(state: DesiredState)
    requires ValidRevision(state)
    ensures ValidRevision(WithoutFallback(state))
  {
  }

  lemma CompilesWhenValid(state: DesiredState, uplink: string, upstreams: set<string>, c: Compiled)
    requires ValidRevision(state) && CompiledOf(state, uplink, upstreams) == Ok(c)
    ensures Compiles(state, uplink, upstreams, c)
  {
  }

  // ------------------------------------------------------------------
  // What the fallback has no part in
  // ------------------------------------------------------------------

  lemma SameGroups(state: DesiredState, uplink: string)
    requires AddressesParse(state.devices)
    ensures EgressGroups(WithoutFallback(state), uplink) == EgressGroups(state, uplink)
    ensures InternalNetworks(WithoutFallback(state)) == InternalNetworks(state)
  {
    hide AddressesParse, AddressesOf, Permitted, Proxied, Sort, Networks, PrivateTunnels;
    assert forall ids :: TunnelGroups(WithoutFallback(state), ids) == TunnelGroups(state, ids);
  }

  lemma SamePlan(state: DesiredState, uplink: string)
    ensures PlanOf(WithoutFallback(state), uplink) ==
      if PlanOf(state, uplink).Ok? then Ok(PlanOf(state, uplink).value.(realityPort := 0)) else PlanOf(state, uplink)
  {
    hide EgressGroups, InternalNetworks, DnsDestinationsOf, PortACLs, AddressBook, TunnelCount, AddressesParse;
    if AddressesParse(state.devices) { SameGroups(state, uplink); }
  }

  lemma SamePlacements(plan: FirewallPlan)
    ensures PlacementsOf(plan.(realityPort := 0)) == PlacementsOf(plan)
    ensures EndpointClients(plan.(realityPort := 0)) == EndpointClients(plan)
  {
  }

  /** Turning the fallback off closes its port and changes nothing else that is compiled. */
  lemma FallbackIsApart(state: DesiredState, uplink: string, upstreams: set<string>)
    ensures CompiledOf(WithoutFallback(state), uplink, upstreams) ==
      var with := CompiledOf(state, uplink, upstreams);
      if with.Ok? then Ok(with.value.(plan := with.value.plan.(realityPort := 0))) else with
  {
    hide PlanOf, PlacementsOf, SpecsOf, ById, Endpoints, EndpointClients, ZonesAnswerable, GroupsHaveSpecs;
    SamePlan(state, uplink);
    if PlanOf(state, uplink).Ok? { SamePlacements(PlanOf(state, uplink).value); }
  }
}
