/** The ingress interface's configuration: the hub's own key, and one peer for each device.

A peer may claim its device's address and no other, so what a client can send from is settled here. */
module IngressPlanner {
  import opened Netip
  import opened Ordering
  import opened Domain
  import opened Keys
  import opened FirewallPlanner
  import opened Validation
  import opened Revision
  import opened PlanFacts
  import opened PeerSync
  import PublicEndpoint
  import Escaping

  datatype IngressSpec = IngressSpec(
    address: Option<Cidr>, listenPort: Port, privateKey: string, peers: seq<Peer>)

  // ------------------------------------------------------------------
  // Peers
  // ------------------------------------------------------------------

  /** A prefix as it is written. */
  function PrefixText(p: Cidr): string { PublicEndpoint.Dotted(p.addr) + "/" + Escaping.Itoa(p.bits) }

  lemma PrefixTextTells(p: Cidr, q: Cidr)
    ensures PrefixText(p) == PrefixText(q) <==> p == q
  {
    hide PublicEndpoint.Dotted, Escaping.Itoa, Escaping.Atoi;
    Cut(p);
    Cut(q);
    PublicEndpoint.ParseDotted(p.addr);
    PublicEndpoint.ParseDotted(q.addr);
    Escaping.AtoiItoa(p.bits);
    Escaping.AtoiItoa(q.bits);
  }

  lemma Cut(p: Cidr)
    ensures Escaping.Before(PrefixText(p), '/') == PublicEndpoint.Dotted(p.addr)
    ensures Escaping.After(PrefixText(p), '/') == Escaping.Itoa(p.bits)
  {
    hide PublicEndpoint.Dotted, Escaping.Itoa;
    PublicEndpoint.DottedIsPlain(p.addr);
    assert PrefixText(p) == PublicEndpoint.Dotted(p.addr) + ['/'] + Escaping.Itoa(p.bits);
    Escaping.CutAt(PublicEndpoint.Dotted(p.addr), '/', Escaping.Itoa(p.bits));
  }

  /** An address that does not parse is written as it is; compilation has refused it by then. */
  function AddressText(address: Option<Cidr>): string { if address.None? then "" else PrefixText(address.value) }

  function PeerFor(d: Device): Peer { Peer(d.publicKey, [AddressText(d.address)]) }

  function PeerList(devices: seq<Device>): seq<Peer> {
    seq(|devices|, i requires 0 <= i < |devices| => PeerFor(devices[i]))
  }

  predicate PeerLe(a: Peer, b: Peer) { LexLe(a.key, b.key) }

  function PeersOf(devices: seq<Device>): seq<Peer> { Sort(PeerLe, PeerList(devices)) }

  ghost predicate AllHaveKeys(devices: seq<Device>) { forall i :: 0 <= i < |devices| ==> devices[i].publicKey != "" }

  /** The hub's address on the client subnet, which is its resolver's. */
  function HubAddress(hub: Hub): Option<Cidr> {
    if hub.dnsAddress.None? || hub.clientCidr.None? || !Contains(hub.clientCidr.value, hub.dnsAddress.value) then None
    else Some(Prefix(hub.dnsAddress.value, hub.clientCidr.value.bits))
  }

  /** `derive` is the public key of a private one. */
  ghost function IngressSpecOf(state: DesiredState, privateKey: string, derive: string -> string): Result<IngressSpec> {
    if privateKey == "" then Err(HubKeyRequired)
    else if !IsKey(privateKey) then Err(HubKeyMalformed)
    else if state.hub.serverPublicKey != "" && derive(privateKey) != state.hub.serverPublicKey then Err(HubKeyMismatch)
    else if ListenPort(state.hub).Err? then Err(InvalidEndpointPort)
    else if HubAddress(state.hub).None? then Err(HubAddressOutside)
    else if !AllHaveKeys(state.devices) then Err(DeviceKeyMissing)
    else Ok(IngressSpec(HubAddress(state.hub), ListenPort(state.hub).value, privateKey, PeersOf(state.devices)))
  }

  method BuildIngressSpec(state: DesiredState, privateKey: string, derive: string -> string)
    returns (r: Result<IngressSpec>)
    ensures r == IngressSpecOf(state, privateKey, derive)
  {
    hide IsKey, PeersOf;
    if privateKey == "" { return Err(HubKeyRequired); }
    if !IsKey(privateKey) { return Err(HubKeyMalformed); }
    if state.hub.serverPublicKey != "" && derive(privateKey) != state.hub.serverPublicKey {
      return Err(HubKeyMismatch);
    }
    var listenPort := ListenPort(state.hub);
    if listenPort.Err? { return Err(InvalidEndpointPort); }
    var address := HubAddress(state.hub);
    if address.None? { return Err(HubAddressOutside); }
    var peers :- CollectPeers(state.devices);
    return Ok(IngressSpec(address, listenPort.value, privateKey, peers));
  }

  method CollectPeers(devices: seq<Device>) returns (r: Result<seq<Peer>>)
    ensures r == if AllHaveKeys(devices) then Ok(PeersOf(devices)) else Err(DeviceKeyMissing)
  {
    hide AddressText;
    var peers: seq<Peer> := [];
    for i := 0 to |devices|
      invariant peers == PeerList(devices[..i])
      invariant forall k :: 0 <= k < i ==> devices[k].publicKey != ""
    {
      if devices[i].publicKey == "" { return Err(DeviceKeyMissing); }
      assert PeerList(devices[..i + 1]) == PeerList(devices[..i]) + [PeerFor(devices[i])];
      peers := peers + [Peer(devices[i].publicKey, [AddressText(devices[i].address)])];
    }
    assert devices[..|devices|] == devices;
    return Ok(Sort(PeerLe, peers));
  }

  /** The interface is the clients' counterpart: it has the address they resolve at, its network is their
  subnet, it listens where they connect to, and its key is the one they were given. */
  lemma InterfaceMeetsClients(state: DesiredState, privateKey: string, derive: string -> string, spec: IngressSpec)
    requires ValidRevision(state) && IngressSpecOf(state, privateKey, derive) == Ok(spec)
    ensures spec.address.Some? && state.hub.dnsAddress == Some(spec.address.value.addr)
    ensures state.hub.clientCidr.Some?
      && forall a: Addr :: Contains(spec.address.value, a) <==> Contains(state.hub.clientCidr.value, a)
    ensures spec.address.value.bits == state.hub.clientCidr.value.bits
    ensures state.hub.endpointPort == Some(spec.listenPort)
    ensures spec.privateKey == privateKey && derive(spec.privateKey) == state.hub.serverPublicKey
  {
    hide PeersOf, IsKey, ValidDevices, ValidRevisionTunnel;
    KeyText(state.hub.serverPublicKey);
    assert ValidHub(state.hub);
  }

  // ------------------------------------------------------------------
  // What a valid revision's peers are
  // ------------------------------------------------------------------

  lemma PeersAre(devices: seq<Device>, x: Peer)
    ensures x in PeersOf(devices) <==> exists d :: d in devices && x == PeerFor(d)
  {
    hide Sort, AddressText;
    var listed := PeerList(devices);
    SameElements(PeersOf(devices), listed);
    if x in listed {
      var i :| 0 <= i < |listed| && listed[i] == x;
      assert devices[i] in devices;
    }
    if d :| d in devices && x == PeerFor(d) {
      var i :| 0 <= i < |devices| && devices[i] == d;
      assert listed[i] == x;
    }
  }

  /** Two devices share neither a key nor an address, so neither do their peers. */
  lemma ListApart(state: DesiredState, i: nat, j: nat)
    requires ValidRevision(state) && i < j < |state.devices|
    ensures PeerFor(state.devices[i]).key != PeerFor(state.devices[j]).key
    ensures PeerFor(state.devices[i]).allowed != PeerFor(state.devices[j]).allowed
  {
    hide PrefixText, IsKey, ValidDevice;
    var a, b := state.devices[i], state.devices[j];
    assert !SameIdentity(a, b);
    HostAddresses(state, i);
    HostAddresses(state, j);
    PrefixTextTells(a.address.value, b.address.value);
  }

  lemma HostAddresses(state: DesiredState, i: nat)
    requires ValidRevision(state) && i < |state.devices|
    ensures state.devices[i].address.Some? && state.devices[i].address.value.bits == 32
  {
    hide IsKey;
    assert ValidDevice(state.hub, state.devices[i]);
  }

  ghost predicate PeersApart(peers: seq<Peer>) {
    && (forall i, j :: 0 <= i < j < |peers| ==> peers[i].key != peers[j].key && peers[i].allowed != peers[j].allowed)
    && (forall i :: 0 <= i < |peers| ==> |peers[i].allowed| == 1)
  }

  /** Being apart does not depend on the order. */
  lemma ApartSorted(a: seq<Peer>, b: seq<Peer>)
    requires PeersApart(a) && multiset(a) == multiset(b)
    ensures PeersApart(b)
  {
    SameElements(a, b);
    forall i, j | 0 <= i < j < |a| ensures a[i] != a[j] {}
    DistinctPermutation(a, b);
    forall i, j | 0 <= i < j < |b| ensures b[i].key != b[j].key && b[i].allowed != b[j].allowed {
      assert b[i] in a && b[j] in a && b[i] != b[j];
      var k, m :| 0 <= k < |a| && 0 <= m < |a| && a[k] == b[i] && a[m] == b[j];
      assert k < m || m < k;
    }
    forall i | 0 <= i < |b| ensures |b[i].allowed| == 1 { assert b[i] in a; }
  }

  /** The peers of a valid revision share neither keys nor addresses. */
  lemma RevisionPeersApart(state: DesiredState)
    requires ValidRevision(state)
    ensures KeysApart(PeersOf(state.devices)) && AllowedApart(PeersOf(state.devices))
    ensures forall i :: 0 <= i < |PeersOf(state.devices)| ==> Distinct(PeersOf(state.devices)[i].allowed)
  {
    hide ValidRevision, Sort, AddressText;
    var listed := PeerList(state.devices);
    forall i, j | 0 <= i < j < |listed| ensures listed[i].key != listed[j].key
      && listed[i].allowed != listed[j].allowed {
      ListApart(state, i, j);
    }
    ApartSorted(listed, PeersOf(state.devices));
    OneEach(PeersOf(state.devices));
  }

  /** And they are in the order of their keys, so that an unchanged revision gives an unchanged interface. */
  lemma PeersAreSorted(devices: seq<Device>)
    ensures SortedBy(PeerLe, PeersOf(devices))
  {
    hide PeerList, Sort;
    LexPreorder();
    assert TotalPreorder(PeerLe);
    SortSorted(PeerLe, PeerList(devices));
  }

  lemma OneEach(peers: seq<Peer>)
    requires PeersApart(peers)
    ensures AllowedApart(peers) && forall i :: 0 <= i < |peers| ==> Distinct(peers[i].allowed)
  {
    forall i, j | 0 <= i < j < |peers| ensures Elements(peers[i].allowed) !! Elements(peers[j].allowed) {
      assert peers[i].allowed == [peers[i].allowed[0]] && peers[j].allowed == [peers[j].allowed[0]];
    }
  }

  /** Whatever the interface carried, one synchronisation in which every command works leaves it with
  exactly the revision's devices, each with its own address. */
  method Converge(script: nat -> bool, live: map<string, set<string>>, state: DesiredState)
    returns (ok: bool, after: map<string, set<string>>)
    requires ValidRevision(state)
    ensures (forall n: nat :: script(n)) ==> ok
    ensures ok ==> Carries(after, PeersOf(state.devices))
  {
    hide ValidRevision, PeersOf;
    RevisionPeersApart(state);
    var interface := new Interface(script, live);
    ok := interface.SyncPeers(PeersOf(state.devices), live.Keys);
    after := interface.live;
  }

  /** After which no dump of the interface shows a difference. */
  lemma NothingLeftToChange(state: DesiredState, live: map<string, set<string>>, observed: seq<Peer>)
    requires ValidRevision(state) && Carries(live, PeersOf(state.devices)) && Dumps(observed, live)
    ensures PeerChanges(PeersOf(state.devices), observed) == []
  {
    hide ValidRevision, PeersOf, Carries, Dumps, PeerChanges;
    RevisionPeersApart(state);
    ConvergedShowsNothing(PeersOf(state.devices), observed, live);
  }

  // ------------------------------------------------------------------
  // Who can send from an address
  // ------------------------------------------------------------------

  /** Some peer may use this source address; a packet from any other is dropped on arrival. */
  ghost predicate MaySend(peers: seq<Peer>, a: Addr) {
    exists i :: 0 <= i < |peers| && PrefixText(Host(a)) in peers[i].allowed
  }

  /** The addresses a client can send from are those of the revision's devices. */
  lemma SendersAreDevices(state: DesiredState, a: Addr)
    requires ValidRevision(state)
    ensures MaySend(PeersOf(state.devices), a) <==> exists d :: d in state.devices && HasAddress(d, a)
  {
    hide ValidRevision, PeersOf, PrefixText;
    var peers := PeersOf(state.devices);
    if i :| 0 <= i < |peers| && PrefixText(Host(a)) in peers[i].allowed {
      PeersAre(state.devices, peers[i]);
      var d :| d in state.devices && peers[i] == PeerFor(d);
      SenderIs(state, d, a);
    }
    if d :| d in state.devices && HasAddress(d, a) {
      SenderIs(state, d, a);
      PeersAre(state.devices, PeerFor(d));
      var i :| 0 <= i < |peers| && peers[i] == PeerFor(d);
    }
  }

  lemma SenderIs(state: DesiredState, d: Device, a: Addr)
    requires ValidRevision(state) && d in state.devices
    ensures PrefixText(Host(a)) in PeerFor(d).allowed <==> HasAddress(d, a)
  {
    hide ValidRevision, PrefixText;
    var i :| 0 <= i < |state.devices| && state.devices[i] == d;
    HostAddresses(state, i);
    PrefixTextTells(d.address.value, Host(a));
  }
}
