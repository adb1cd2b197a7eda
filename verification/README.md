# VPN Hub: a verified model

VPN Hub turns a configuration of devices, tunnels and permissions into a packet filter, policy
routing, per-tunnel namespaces, DNS resolvers and a fallback listener, and keeps the host converged
on them. This project models the compiler and the crash-safe host protocols in Dafny and proves what
they are for.

`dafny verify dfyconfig.toml` verifies the whole project.

## How it is laid out

| part | modules |
|---|---|
| entities and orders | `Domain`, `Ordering`, `Netip`, `Links` |
| configuration to revision | `Validation`, `Revision`, `Keys` |
| the compiler | `FirewallPlanner`, `EgressPlanner`, `DnsPlanner`, `IngressPlanner`, `Compiler`, `HostCompiler`, `Totality` |
| the rule language, the renderer, what the sets mean | `Nftables`, `Renderer`, `PlanFacts`, `SetFacts`, `PolicySets` |
| what the rules do to packets | `KillSwitch`, `PolicyRouting`, `Steering`, `DnsAgreement`, `OwnTraffic`, `Fallback`, `HubTraffic`, `Revocation`, `Loading`, `EndToEnd` |
| the firewall and DNS transition | `DnsRecord`, `DnsTransition`, `ResolverTexts`, `NameResolution`, `CompiledPass` |
| the other host protocols | `Listener`, `Deploy`, `PeerSync`, `UpstreamStore` |
| subscription links | `Escaping`, `ShareLink`, `LinkRoundTrip`, `PublicEndpoint`, `SingBox`, `Subscription` |
| the bot's state machines | `Notifier`, `Allocator` |

Code that works step by step is a method or a class whose loops and effects are those of the source,
proved equal to a specification function (`PlanOf`, `SpecsOf`, `ForwardRules`, `RecordFor`, …). The
theorems are about those functions, so they hold of the methods. A protocol is a class with one
field per file, table or process. Each of its primitive steps asks a script, a function from step
numbers to events that the theorems quantify over, what happened around the step and how it ended:
it worked, failed with or without effect, or the process died in it. `History` methods run whole
sequences of operations against any script.

The packet filter is a list of rules per chain; `Nftables.Walk` interprets it: matches are
conjunctive, `mark set` continues, a verdict or `return` ends the chain, and each base chain has a
policy. The forward policy (`KillSwitch.ForwardPolicy`) is stated on devices, tunnels and
permissions alone, without reference to rules, sets or marks.

`Compiles` says that a valid revision compiled, `Installed` that the rendered table is loaded, with
whatever the resolver has added to the private networks' sets. `EndToEnd` discharges both from a
configuration, and exhibits one.

## What turned out false

Each is proved with a witness or as an exact condition; the code was followed.

- Revoking a device does not always narrow what passes between clients. An ACL whose source was
  revoked is kept and compiles to "any client", so a third device that had no such ACL reaches the
  target; one whose target was revoked makes the whole file unloadable
  (`Revocation.RevocationNarrowsBetweenClientsIff`, `EndToEnd.RevokingACallerOpensTheCalled`,
  `Loading.RevokedRevisionLoadsIff`).
- A successful pass can leave DNS connections pointing elsewhere than at their clients' resolvers:
  exactly those of clients outside the scopes the record calls for (`DnsTransition.StaleOutlives`).
  Two families of inputs show it. With the record lost, the clients of a subnet the configuration
  has left (`DnsTransition.LossThenMove`). With the record intact and the table flushed, whatever
  clients connected to before the table was loaded again (`DnsTransition.FlushLeavesStrays`).
- Removing a tunnel sweeps the routing of every live tunnel whose interface name contains the
  removed one's, until the next pass (`PolicyRouting.SweepTakesNamesake`).
- The removed tunnel's own rule, which internal/adapters/linux/egress.go:149-155 has the sweep take
  down, stays exactly when the deleted namespace took the link's route with it
  (`PolicyRouting.RuleIsLeft`).
- A tunnel called `admitted` renders its DNS client set under the name of the set of all clients
  (`SetFacts.NamesCollideOnlyAtAdmitted`).
- A deploy can leave the new state in force with nothing to roll back to, in exactly two ways: its save
  takes effect after the agent has rolled the armed deploy back, or its save fails after the rename
  and the disarming that follows works without the agent having rolled back first
  (`Deploy.WayBackIff`, `Deploy.SlowSaveLosesIt`).
- A subscription link whose user name contains the marks of an encrypted file is proven and then
  cannot be loaded (`Subscription.DeployedIsProven`, `Subscription.UserTakenForMarks`).
- `Restore` cut between its writes leaves one link in both files, although
  internal/adapters/linux/upstreamstore.go:111-113 promises both survive (`UpstreamStore.RestoreOnce`).
- When two private networks share an address, having learned it or naming the same resolver, clients
  are sent to the first network and the hub's own packets to the last (`OwnTraffic.OneOwnerIffUnshared`,
  `OwnTraffic.SharedResolver`).
- Two peers that claim one address never converge (`PeerSync.Interface.SyncPeers`). A valid revision
  has no such peers and always does (`IngressPlanner.Converge`).
- Pruning the debounce map can change a decision when one key is used with two windows
  (`Notifier.InvisibleIffHarmless`). The shipped notifier holds back one category, `agent-error`, with
  one window of 15 minutes (internal/delivery/bot/notify.go:330), so it never meets such a clash.
- The address allocator never proposes the network address of a /31 or /32, which validation
  accepts, and misses no other (`Allocator.MissesOnlyTheNetworkAddress`).
- The comment at internal/adapters/linux/reality.go:345-348 has private destinations re-marked on the
  output path; marked packets return from that chain unchanged. A fallback connection of a
  tunnel-bound device is kept out of a private network by that mark and the output chain
  (`Fallback.NoWayIntoANetwork`).
- The block rule of the comment at internal/adapters/linux/reality.go:404-411 sees only the address a
  client wrote. Another client or another tunnel's namespace is within reach of a fallback connection
  exactly when its device goes direct and it asked for a name that resolves there, or for a public
  address (`Fallback.OnlyDirectGoesInside`).

## Model

| member | source | states |
|---|---|---|
| EndToEnd.Deploy | internal/application/deploy.go:30-40 | from a configuration, a revocation list and the host's key files, a table is loaded exactly when the configuration is valid, the host holds the key the configuration names, an uplink is known, every enabled tunnel has an upstream and one of the 16384 links, and no client ACL is left targeting a revoked device; what is loaded is the rendering of a compiled valid revision, and the interface's peers are that revision's devices |
| EndToEnd.Judge | internal/adapters/linux/nftables.go:335-410 | with nothing assumed about the intermediate steps, the deployed forward chain gives every packet the policy's verdict: established ones, clients' ones, revoked devices and orphaned ACLs included, and what tunnels' own processes dial |
| EndToEnd.Ask | internal/adapters/linux/nftables.go:412-471 | with nothing assumed about the intermediate steps, a packet is let into the hub exactly when it is a client's query to the one resolver that answers its egress, an established packet, what the hub itself sends over loopback, or a service the hub offers |
| EndToEnd.Send | internal/adapters/linux/nftables.go:297-331 | with any policy tables missing, the whole path of a forwarded packet ends where its destination, permissions and egress say, and never on the uplink for a device bound to a tunnel |
| EndToEnd.SomethingDeploys | internal/application/service.go:109-285 | a concrete configuration with a device bound to a tunnel satisfies every condition of deployment, so the theorems are not vacuous |
| Totality.CompilesIff | internal/application/reconcile.go:236-294 | a valid revision compiles if and only if the host holds the hub key the configuration names, there is an uplink, every tunnel has its upstream, and there are at most 16384 tunnels: no other error of the compiler can occur, whatever the fallback's key file holds |
| Totality.PolicyCompilesIff | internal/application/reconcile.go:271-282 | the plan, the layout and the DNS plan of a valid revision exist if and only if there is an uplink, an upstream for each tunnel and a link for each |
| Totality.DnsPlanExists | internal/application/dns_plan.go:18-90 | once a valid revision has its layout no zone lacks a resolver and no group lacks a namespace |
| HostCompiler.CompileHost | internal/application/reconcile.go:236-294 | whatever the fallback's key file holds, the rest of the hub compiles as it would without it or meets the same first error, in the source's order; the fallback port is accepted if and only if an enabled listener specification was built, and that is if and only if the fallback is on and the file holds a key; otherwise the failure is reported |
| HostCompiler.IngressExistsIff | internal/application/ingress_spec.go:19-64 | for a valid revision the ingress specification exists if and only if the host's key file holds a key whose public half is the one the configuration names |
| HostCompiler.FallbackIsApart | internal/application/reconcile.go:243-258 | switching the fallback off closes its port and leaves every other part of the compilation identical |
| Keys.ReadKey | internal/adapters/linux/keyfile.go:33-46 | a key is read only from a file whose trimmed content is a key in the expected encoding |
| Netip.OverlapsIffShared | internal/application/validation_netip.go:15-25 | the prefix overlap test holds if and only if some address lies in both blocks |
| Netip.BlockIsInterval | internal/application/validation_netip.go:27-33 | a CIDR block is exactly the interval of its size that starts at its masked address |
| Validation.ZonesOverlapIffShared | internal/application/service.go:389-391 | the zone overlap test holds if and only if some DNS name lies under both zones |
| Validation.ValidateZones | internal/application/service.go:220-238 | a tunnel's zones are accepted exactly when no name lies under two of the zones accepted so far |
| Validation.ValidateRouteOverlaps | internal/application/service.go:368-385 | accepted exactly when every route parses and no address lies in two declared routes |
| Validation.ValidateTunnels | internal/application/service.go:180-245 | accepted exactly when ids are distinct, every tunnel is well-formed, its allow list names devices, and every name lies under at most one declared zone |
| Validation.ValidateDevices | internal/application/service.go:135-180 | accepted exactly when every device is well-formed inside the client subnet, holds a key and chose an egress it may use, and no two share an id, an address or a key |
| Validation.ValidateHub | internal/application/validation_netip.go:86-119 | accepted exactly when the server key is one, the ports, client subnet and resolver address are usable and the client subnet shares no address with the link base |
| Validation.ValidateACLs | internal/application/service.go:287-317 | accepted exactly when every endpoint is a device (or any, as a source), endpoints differ, ports are set, and no rule is repeated |
| Validation.Validate | internal/application/service.go:109-285 | a configuration is accepted exactly when it is valid; in particular each address has one owner among the routes and each name one among the zones |
| Revision.BuildDesiredState | internal/application/service.go:46-85 | the revision holds every device and ACL and exactly the enabled tunnels, each list in the order of its key |
| Revision.RemoveRevoked | internal/application/revocation.go:19-36 | keeps exactly the devices whose id is not revoked, in order, and everything else untouched |
| Revision.CompiledIsValid | internal/application/service.go:109-285 | any devices revoked, compiling a valid configuration yields a valid revision; its ACLs all resolve if none names a revoked device |
| Compiler.RevisionForgetsOrder | internal/application/service.go:46-85 | permuting the devices, tunnels or ACLs of a configuration changes nothing in the revision, hence nothing compiled from it |
| FirewallPlanner.BuildFirewallPlan | internal/application/firewall_plan.go:34-140 | the plan or the error of every revision, whatever order maps are walked in: groups, marks, permitted lists, networks and resolver destinations as functions of the revision |
| FirewallPlanner.PermittedClients | internal/application/firewall_plan.go:215-246 | for every tunnel, the sorted addresses of the devices it allows, or everyone's when its allow list is empty; an error exactly when an address is malformed |
| FirewallPlanner.DnsDestinations | internal/application/firewall_plan.go:142-178 | each non-empty group is given its link's near end, in order of egress; an error exactly when there are more tunnel groups than links |
| FirewallPlanner.UncoveredResolverRoutes | internal/application/firewall_plan.go:293-319 | host routes for exactly the resolvers no declared route covers |
| FirewallPlanner.TunnelEgressIds | internal/application/firewall_plan.go:101-115 | collecting the egresses from a map in any order and sorting yields the sorted names of all of them |
| FirewallPlanner.ClientPortACLs | internal/application/firewall_plan.go:180-207 | each ACL with its endpoints looked up; any and a device that is gone both leave the source open |
| PlanFacts.PermittedByMembers | internal/application/firewall_plan.go:215-246 | an address is on a tunnel's permitted list if and only if some device the tunnel allows has it |
| PlanFacts.NetworkRoutesCover | internal/application/firewall_plan.go:250-289 | the routes of a private network cover exactly its declared routes and its resolvers |
| FirewallPlanner.GroupCount | internal/application/firewall_plan.go:101-133 | the number of tunnel groups is the number of distinct tunnel egresses, chosen or merely enabled |
| EgressPlanner.Placements | internal/application/egress_spec.go:44-55 | every tunnel of the plan once: egress groups except direct, then private networks |
| Links.LinkAddresses | internal/application/egress_spec.go:134-151 | stepping an address at a time through the block yields the index-th /30's two ends, or an error when the block has run out |
| Links.LinkExists | internal/application/egress_spec.go:134-151 | a link exists if and only if its index is below 16384, and where it lies |
| Links.LinksAreDisjoint | internal/application/egress_spec.go:134-151 | both ends of a link are distinct addresses of its own /30 inside the link base, and /30s of different indices share no address |
| EgressPlanner.BuildEgressSpecs | internal/application/egress_spec.go:67-118 | one spec for each placement in order, or the first error in that order |
| Compiler.LayoutDependsOnTunnels | internal/application/egress_spec.go:67-118 | marks, interfaces, links, tables and ports are a function of the enabled tunnels alone |
| Compiler.LayoutIsInjective | internal/application/egress_spec.go:79-118 | no two tunnels share a mark, table, port, interface or link address; ports do not wrap; and a mark and its table always differ by one constant, so a rule left by an older revision never names another tunnel's table |
| Compiler.OrderIsDistinct | internal/application/firewall_plan.go:101-133 | every tunnel takes exactly one position of the layout |
| Compiler.Complete | internal/application/reconcile.go:271-282 | specs, completed plan and DNS plan together, or the first stage's error; what they are is CompiledIsValid, LayoutDependsOnTunnels and PlannedResolver |
| EgressPlanner.SocksEndpoints | internal/application/reconcile.go:189-214 | one endpoint for each spec with a port, in order, with the clients its tunnel's plan entry lists, the network's over the group's; that these are the permitted ones is EndpointClientsFit |
| PolicySets.EndpointClientsFit | internal/application/reconcile.go:189-214 | each namespace's proxy is open to exactly the clients permitted to use its tunnel |
| Renderer.RenderRuleset | internal/adapters/linux/nftables.go:221-589 | emits exactly the sets and rules of every chain in order, for some sorted duplicate-free list of the admitted clients |
| Renderer.RenderingIsDetermined | internal/adapters/linux/nftables.go:221-589 | any two renderings of a plan are equal: nothing depends on map order |
| Renderer.AdmittedDnsClients | internal/adapters/linux/nftables.go:63-77 | the sorted addresses of all groups, each once |
| Renderer.DnsDestinationFor | internal/adapters/linux/nftables.go:44-61 | the first destination whose client list equals the group's |
| Renderer.AllowedSets | internal/adapters/linux/nftables.go:158-185 | one entry for each tunnel id, from its first role, direct left out |
| Renderer.RenderForward | internal/adapters/linux/nftables.go:335-410 | emits established traffic, client ACLs, the drop between clients, the DNS-over-TLS refusal, then networks, egresses, proxies and endpoints in that order; what the chain accepts is KillSwitchIsExact |
| Renderer.RenderInput | internal/adapters/linux/nftables.go:412-471 | emits each served group's resolver rules before the refusals and the hub's own services; what the chain accepts is InputIsExact and FallbackReachesOnlyTheResolver |
| Renderer.RenderPrerouting | internal/adapters/linux/nftables.go:299-331 | emits the marks of private networks, which end the walk, before those of egresses; what it does to a packet is PreroutingWalk |
| Renderer.RenderOutputMark | internal/adapters/linux/nftables.go:473-495 | emits the return of marked packets before any mark by destination; a marked packet is left alone by it in FallbackIsExact |
| Renderer.RenderOutput | internal/adapters/linux/nftables.go:497-520 | emits one drop for each tunnel egress and network; what the chain drops is MarkHasOneWayOut |
| Renderer.RenderPreroutingNat | internal/adapters/linux/nftables.go:528-563 | emits the redirections of each served group before the hub's; where queries end up is QueriesReachTheResolver |
| SetFacts.NamesCollideOnlyAtAdmitted | internal/adapters/linux/nftables.go:31-42 | two sets share a rendered name if and only if they are the same set, or one is the set of all DNS clients and the other belongs to a tunnel called admitted |
| SetFacts.InterfaceNamesFit | internal/application/egress_spec.go:79-90 | every tunnel of a valid revision has an interface name of its own, within the kernel's limit of 15 characters |
| PolicySets.ClientSetMeans | internal/adapters/linux/nftables.go:242-255 | the set of an egress holds exactly the addresses of the devices that chose it |
| PolicySets.AllowedSetMeans | internal/adapters/linux/nftables.go:278-288 | whichever role rendered it, a tunnel's set holds exactly the addresses of the devices it allows |
| PolicySets.InternalSetMeans | internal/adapters/linux/nftables.go:290-303 | a private network's set holds exactly its routes, its resolvers and what the resolver learned |
| Nftables.WalkUniform | internal/adapters/linux/nftables.go:335-410 | a run of rules with one verdict gives it if and only if some rule of the run applies |
| KillSwitch.KillSwitchIsExact | internal/adapters/linux/nftables.go:335-410 | for every new packet from a client and every interface routing might choose, the emitted chain accepts exactly by client ACL, own egress, permitted private network or permitted proxy, and refuses DNS over TLS |
| KillSwitch.LeavingIsPolicy | internal/adapters/linux/nftables.go:357-410 | the same for packets leaving the ingress interface, whatever the ACLs name |
| KillSwitch.OnlyDirectLeavesByUplink | internal/adapters/linux/nftables.go:379-410 | a new packet is let out by the uplink if and only if its sender chose direct and it is not DNS over TLS |
| HubTraffic.OnlyProxiesDialOut | internal/adapters/linux/nftables.go:386-403 | of new packets that do not come from clients, the forward chain accepts exactly those a tunnel that runs sing-box or OpenVPN in its namespace sends by the uplink, and drops the rest |
| HubTraffic.ForwardIsExact | internal/adapters/linux/nftables.go:335-410 | the forward chain's verdict on every packet there is, said of devices, tunnels and permissions |
| HubTraffic.InputIsPolicy | internal/adapters/linux/nftables.go:412-471 | the input chain's answer to every packet there is: besides queries, it accepts what is established, unmarked over loopback, ICMP, TCP to the management port, UDP to the endpoint's port, TCP to 443 with the fallback on, and nothing else |
| HubTraffic.OthersAreNotMarked | internal/adapters/linux/nftables.go:301-303 | what does not come from clients leaves the marking chain as it came |
| HubTraffic.BetweenClients | internal/adapters/linux/nftables.go:313-328 | a packet from one client to another keeps to the main table whatever its sender's egress is, and arrives exactly when an ACL opens the way |
| HubTraffic.TranslationForOthers | internal/adapters/linux/nftables.go:545-563 | what does not come from clients is translated exactly when it comes by the uplink to UDP port 443 and the hub takes handshakes there |
| HubTraffic.HandshakesArrive | internal/adapters/linux/nftables.go:454-563 | a client's handshake from outside is delivered to the endpoint's port, whether sent there or to port 443 where the hub takes that |
| Loading.LoadsIff | internal/adapters/linux/nftables.go:357-378 | the rendered file loads if and only if every client ACL's target is a device of the revision |
| Steering.PreroutingWalk | internal/adapters/linux/nftables.go:299-331 | a client's packet leaves the marking chain with the mark of the first private set holding its destination, otherwise with its own egress's |
| Steering.SteeringIsExact | internal/adapters/linux/egress.go:561-581 | marking, translation, policy routing and filtering composed: for every subset of policy tables a forwarded packet meets exactly one stated fate, and is never sent by the uplink if its device is bound to a tunnel |
| Steering.SpecsAreApart | internal/application/egress_spec.go:67-118 | the specs of a compiled revision have pairwise distinct tables that agree with their marks |
| OwnTraffic.OwnTrafficIsMarked | internal/adapters/linux/nftables.go:473-489 | a packet of the hub's own that carries no mark gets that of the last private network whose set holds its destination, and none otherwise |
| OwnTraffic.OneOwnerIffAgreed | internal/adapters/linux/nftables.go:299-331 | clients and the hub itself agree on the network of a destination if and only if no two sets hold it |
| OwnTraffic.OneOwnerIffUnshared | internal/adapters/linux/nftables.go:299-331 | said of the revision: they agree if and only if no two private networks have the address among their routes, their resolvers or what their resolvers learned |
| OwnTraffic.SharedResolver | internal/adapters/linux/nftables.go:299-331 | a resolver that two private networks both name is such an address with nothing learned |
| HubTraffic.OwnTrafficStays | internal/adapters/linux/nftables.go:473-520 | whatever routing picks, a packet of the hub's own to an address that private networks claim gets out exactly by the link of the last of them, and any other gets out |
| PolicyRouting.HostRouting.EnsurePolicyRouting | internal/adapters/linux/egress.go:561-581 | adds at most the tunnel's own rule, and success means the mark leads into the tunnel; stale rules never conflict |
| PolicyRouting.HostRouting.ApplyOne | internal/adapters/linux/egress.go:210-235 | one tunnel's steps in order; other tunnels' rules are untouched whatever fails, nothing is routed without the link, and the routing is there even if the tunnel does not come up |
| PolicyRouting.HostRouting.ForgetRouting | internal/adapters/linux/egress.go:156-177 | removes no rule but those whose table mentions the device, and all of those when every command works |
| PolicyRouting.HostRouting.Remove | internal/adapters/linux/egress.go:118-146 | when the deleted namespace took the link with it, the removed tunnel's own rules stay and lead into a table without a route; when it did not and every command works, rule and route are gone |
| PolicyRouting.HostRouting.Apply | internal/adapters/linux/egress.go:89-147 | one tunnel's failure does not stop another; a tunnel that did not fail is steered if no removed tunnel's interface name occurs in its own, and only then when the sweep's commands all work; whether or not the removed links vanish first |
| PolicyRouting.SweepTakesNamesake | internal/adapters/linux/egress.go:156-177 | in a pass where every command works and no failure is reported, removing a tunnel takes down the routing of a live tunnel whose interface name contains the removed one's |
| PolicyRouting.RuleIsLeft | internal/adapters/linux/egress.go:149-177 | though every command works, a removed tunnel's rule outlives the sweep if and only if its link vanished with the namespace |
| DnsPlanner.BuildDnsPlan | internal/application/dns_plan.go:18-90 | zones, private resolvers and client resolvers in order, or which error |
| NameResolution.ZoneRouteIs | internal/application/dns_plan.go:27-52 | the plan's zones are exactly those of the private networks, each forwarded to the far end of its network's link, with its network's servers and its network's set |
| NameResolution.NamesAreAskedWhereTheyBelong | internal/adapters/linux/dnsmasq.go:68-107 | every device's own resolver, listening where its queries are brought, sends a name of a private network to that network's namespace and adds the answers to that network's set, and sends any other name to the namespace of the device's egress and nowhere else |
| NameResolution.PrivateResolverAsks | internal/adapters/linux/dnsmasq.go:128-148 | in the namespace of a network with zones a resolver listens where its names are sent, and asks exactly the network's own servers |
| NameResolution.PublicResolverListens | internal/adapters/linux/dnsmasq.go:112-125 | in the namespace of a device's egress a resolver listens where the device's other names are sent |
| NameResolution.OneZoneForEachName | internal/application/service.go:220-238 | in a valid configuration a name belongs to at most one private network, by at most one zone |
| DnsAgreement.GroupIsServed | internal/adapters/linux/nftables.go:44-61 | matching client lists gives each group its own link's near end (the hub address for direct) and never another group's |
| DnsAgreement.SpecAnswers | internal/application/egress_spec.go:79-118 | the host end of the egress spec's link is that same address |
| DnsAgreement.PlannedResolver | internal/application/dns_plan.go:57-88 | a resolver is planned for every device's address, and every planned one listens on that same address |
| DnsAgreement.InputIsExact | internal/adapters/linux/nftables.go:412-471 | a query from the ingress interface is accepted if and only if it is addressed to the resolver of the device at its source |
| DnsAgreement.QueriesReachTheResolver | internal/adapters/linux/nftables.go:528-563 | wherever a device sends its queries they are delivered to that same address on port 53, and accepted there |
| CompiledPass.MappingAgrees | internal/adapters/linux/nftables.go:93-121 | the recorded mapping sends each device to that same address |
| CompiledPass.UnitsAgree | internal/application/dns_plan.go:18-90 | the resolvers the DNS plan names are exactly those the firewall plan's clients and zones need |
| ResolverTexts.CompiledHasOneText | internal/adapters/linux/dnsmasq.go:156-212 | a compiled revision never plans two configurations for one resolver |
| ResolverTexts.PlanDecidesDns | internal/application/dns_plan.go:18-90 | revisions with equal firewall plans have equal DNS plans, so a change of any resolver's text is a change of the plan the record is about |
| CompiledPass.CompiledPassIsProper | internal/application/reconcile.go:236-294 | every compiled revision meets the conditions of the transition theorems |
| Fallback.BuildRealityIngressSpec | internal/application/reality_spec.go:19-80 | a disabled spec when the fallback is off, otherwise one user for each device with its egress's mark in id order, or the error |
| Fallback.RenderRealityServerConfig | internal/adapters/linux/reality.go:349-451 | users, rules and one outbound for each mark, first appearance first, or the first field that is missing |
| Fallback.SpecExists | internal/application/reality_spec.go:19-80 | for a compiled revision a spec fails to exist if and only if the fallback is on and the key it was given is none |
| Fallback.ListenerFollowsEgress | internal/adapters/linux/reality.go:368-402 | for every device the first matching rule refuses a literal address that is not public and sends everything else, names included, to an outbound with its egress's mark |
| Fallback.ListenerMeetsClients | internal/application/reality_spec.go:19-80 | the listener has the port the packet filter accepts, the hub's name and resolver, the key and short id that were given, and one account for each device with its own credential, and no others |
| Fallback.MarkHasOneWayOut | internal/adapters/linux/nftables.go:497-520 | a marked packet is dropped if and only if it leaves by an interface other than its tunnel's |
| Fallback.FallbackIsExact | internal/adapters/linux/nftables.go:473-520 | whatever routing picks, a fallback connection gets out exactly by its device's tunnel, or freely for direct, unless it asked for an address that is not public; a name is resolved only at the outbound and goes the device's way whatever it resolves to |
| Fallback.NoWayIntoANetwork | internal/adapters/linux/reality.go:349-402 | a tunnel-bound device's fallback connection never leaves by a private network's link, not even to a name that resolves into it |
| Fallback.OnlyDirectGoesInside | internal/adapters/linux/reality.go:404-411 | towards the clients' interface or another tunnel's link a fallback connection is accepted if and only if its device goes direct and it asked for a name or a public address |
| Fallback.FallbackReachesOnlyTheResolver | internal/adapters/linux/nftables.go:433-471 | over loopback a fallback connection reaches exactly the hub's resolver and nothing else of the hub |
| Revocation.RevocationNarrows | internal/application/revocation.go:19-36 | towards any interface but the clients', the pruned chain accepts exactly what the unpruned one did minus the revoked addresses |
| Revocation.PermittedListNarrows | internal/application/firewall_plan.go:215-246 | a tunnel's permitted list loses exactly the revoked addresses, also when its whole allow list was revoked |
| Revocation.LayoutSurvives | internal/application/egress_spec.go:67-118 | revoking devices leaves every spec as it was |
| Revocation.RevocationNarrowsBetweenClientsIff | internal/application/firewall_plan.go:180-207 | over the packets clients can send, revocation narrows what passes between them if and only if, for every ACL with a revoked source and a kept target, every kept device other than the target already had that ACL or one from any |
| Revocation.OrphanWidens | internal/application/firewall_plan.go:180-207 | otherwise the device that had neither can send a packet that only the pruned chain lets through |
| EndToEnd.RevokingACallerOpensTheCalled | internal/application/firewall_plan.go:180-207 | three phones and one ACL, both configurations deployable: with the caller there the third phone's call to the called one is dropped, and once the caller is revoked it is accepted |
| Loading.RevokedRevisionLoadsIff | internal/application/firewall_plan.go:180-207 | the pruned revision's file loads if and only if no ACL targets a revoked device |
| IngressPlanner.SendersAreDevices | internal/application/ingress_spec.go:53-61 | the source addresses the interface lets clients use are exactly those of the revision's devices |
| DnsRecord.DnsConntrackStateFor | internal/adapters/linux/nftables.go:93-121 | the record of a plan: its subnet, interface and every client's resolver, the last group listing a client deciding |
| DnsRecord.DnsConntrackCleanupScopes | internal/adapters/linux/nftables.go:123-151 | the earlier scopes and every client whose resolver, admission or interface changed; the whole subnet without a record |
| DnsRecord.MappingFromIs | internal/adapters/linux/nftables.go:93-121 | a client is mapped if and only if some group lists it, to the resolver of such a group |
| DnsRecord.ScopesAccount | internal/adapters/linux/nftables.go:123-151 | whatever the old record accounted for, the new mapping agrees with or the new scopes cover |
| DnsRecord.OnlyMovedAreCleared | internal/adapters/linux/nftables.go:135-151 | nothing more is cleared than has to be: besides scopes still open, a client exactly when the old table sent it somewhere the new one does not, or it came in by another interface |
| DnsRecord.FirstScopeCovers | internal/adapters/linux/nftables.go:123-133 | without a record a flow is cleared if and only if its client lies in the plan's subnet |
| DnsTransition.Hub.Prepare | internal/adapters/linux/nftables.go:826-842 | compares, and has the pending transition on disk before anything is loaded or cleared |
| DnsTransition.Hub.LoadRuleset | internal/adapters/linux/nftables.go:844-857 | a table is only ever loaded with its pending record on disk, or the record lost since |
| DnsTransition.Hub.ClearDnsConntrack | internal/adapters/linux/nftables.go:708-733 | success means no flow of a scope disagrees with the plan; flows outside the scopes are kept |
| DnsTransition.Hub.Apply | internal/adapters/linux/nftables.go:819-869 | after an error-free apply no flow made under a table, and none the table can still create, points at another resolver than its client's, through failed writes, loads, deletions and crashes; connections made while no table was loaded are gone just when their client is in a scope |
| DnsTransition.Hub.CommitDnsRepopulation | internal/adapters/linux/nftables.go:873-898 | drops the pending mark only if the resolvers were restarted since the last load, keeping the invariant |
| DnsTransition.Hub.Restart | internal/adapters/linux/dnsmasq.go:315-327 | success means the resolver is up, was started since the last load, and runs from the file as it is |
| DnsTransition.Hub.EnsureRunning | internal/adapters/linux/dnsmasq.go:305-312 | success means the resolver is up and the file holds the text; and that it runs from that text if the text changed, repopulation was asked for, or it did so before; no other resolver is disturbed, and one that is up and unchanged is left running |
| DnsTransition.Hub.ForgetStaleResolvers | internal/adapters/linux/dnsmasq.go:227-267 | never touches a resolver the plan names or its file, whatever fails; when everything works no other resolver is left, nor its file |
| DnsTransition.Hub.ApplyDns | internal/adapters/linux/dnsmasq.go:156-212 | the clients' resolvers are started only once those they forward to are up; when asked to repopulate, success means every resolver of the plan was started since the last load and runs from its text; whatever fails, one that ran from its text still does |
| DnsTransition.Hub.ApplyRest | internal/application/reconcile.go:140-184 | a tunnel or, where sets are to be refilled, a peer that fails to apply does not keep the resolvers from refilling them and the transition from being committed; without refilling, failing peers end the pass |
| DnsTransition.Hub.Reconcile | internal/application/reconcile.go:112-184 | keeps the invariants through any failure; after a success every resolver runs from the text of its plan, even if an earlier pass died between writing a file and restarting; a pass in which everything works needs nothing afterwards, and repeated changes nothing |
| DnsTransition.History | internal/application/reconcile.go:112-184 | over any sequence of plans in one subnet, client traffic, failures, crashes, torn files, lost records and flushed tables: every flow made under a table is accounted for; a record without the pending mark means every resolver was restarted since the last load and runs from its text; success means the latter, and that no connection points elsewhere than at its client's resolver but those made while the table was gone, of which there are no new ones as long as it never is |
| DnsTransition.HistoryAcrossSubnets | internal/adapters/linux/nftables.go:819-869 | the same over plans of changing subnets, as long as the record is not lost; and the record stays readable |
| DnsTransition.StaleOutlives | internal/adapters/linux/nftables.go:123-151 | as long as nothing vanishes by itself, a connection that points elsewhere than the plan outlives a successful apply if and only if its client is in none of the scopes the record calls for, however it was made |
| DnsTransition.FlushLeavesStrays | internal/adapters/linux/nftables.go:123-151 | with the record of the plan in place, every such connection made while the table was flushed outlives the apply that loads it again and succeeds |
| DnsTransition.LossThenMove | internal/adapters/linux/nftables.go:123-133 | after a lost record a connection that points elsewhere outlives a successful apply if and only if its client lies outside the new subnet, for any world and any failures |
| DnsTransition.SecondPassIsIdle | internal/adapters/linux/nftables.go:819-898 | when every command works the second pass writes nothing and loads nothing |
| Listener.RealityIngress.Applied | internal/adapters/linux/reality.go:215-265 | an applied fingerprint is reported only for the configuration the running process was started from |
| Listener.RealityIngress.StopListener | internal/adapters/linux/reality.go:276-282 | success means the unit is gone; it is reported whenever the command works |
| Listener.RealityIngress.ConfirmRunning | internal/adapters/linux/reality.go:292-334 | success means no look found the unit gone or waiting to be restarted, and the last found the process running from the configuration being served or the unit between two states |
| Listener.RealityIngress.Apply | internal/adapters/linux/reality.go:57-182 | keeps the marker truthful through any cut; success means nothing but exactly the spec's configuration is served and the process was not seen to have fallen, and the early return that it was seen running; a refused configuration leaves no listener, and neither file nor marker touched |
| Listener.History | internal/adapters/linux/reality.go:57-182 | the same over any sequence of specs, A to B to A included, with the agent dying and the supervisor restarting anywhere |
| Listener.MarkerMustGoFirst | internal/adapters/linux/reality.go:129-149 | with the marker still there when the file changes, one supervisor restart would make it name what nobody serves |
| Deploy.Host.Arm | internal/adapters/runtime/confirmation.go:55-84 | snapshot before deadline; cut anywhere, nothing is pending or the snapshot is the desired state |
| Deploy.Host.Confirm | internal/adapters/runtime/confirmation.go:103-108 | success means nothing pending and the desired state as it was; exactly when the removal works or there was nothing to remove |
| Deploy.Host.Rollback | internal/adapters/runtime/confirmation.go:120-140 | success means the snapshot is desired and nothing pending; cut in between, the next tick repeats it |
| Deploy.Host.Tick | internal/delivery/cli/agent.go:133-200 | a tick succeeds exactly when all its steps work and there is a state to converge on; then no expired deploy is left and the desired state is active, and otherwise what was active stays |
| Deploy.Host.Apply | internal/application/deploy.go:71-95 | from any files and with or without a confirmation asked for, success means the new state is desired; without one, and on a first deploy, nothing is armed and nothing else changes but by the agent's ticks; with one, cut anywhere, the way back to the state before stays open if and only if the deploy changed nothing or neither of two things happened: a save taking effect after the agent had rolled the deploy back, or a save that took effect yet failed and a disarm that worked |
| Deploy.DeployFrom | internal/application/deploy.go:71-95 | the same of whole deploys: from any files success means the new state is desired; a plain or first deploy arms nothing, and leaves the files as they were but for the desired state when no tick interferes |
| Deploy.WayBackIff | internal/application/deploy.go:71-95 | over all scripts of operator and agent, the state before can be restored after a deploy if and only if neither of those happened; after the first the deploy is reported as armed with nothing pending |
| Deploy.PromptLosesOnlyLate | internal/application/deploy.go:71-95 | with no tick past the deadline before the last two steps only the late failure is left |
| Deploy.SlowSaveLosesIt | internal/application/deploy.go:71-95 | with everything working, one tick past the deadline just before the save loses the way back |
| Deploy.UnconfirmedDeploy | internal/delivery/cli/agent.go:133-200 | never confirmed and cut short anywhere, the first successful tick past the deadline ends with the state before the deploy desired and active and nothing pending, and every state until then can still be rolled back, unless the way back was lost in one of the two ways |
| Deploy.ConfirmedDeploy | internal/adapters/runtime/confirmation.go:103-108 | confirmed with no tick past the deadline since the save, the deployed state stays, whatever ticks before and after meet |
| PeerSync.Interface.SyncPeers | internal/adapters/linux/ingress.go:137-157 | from any observed peers the interface ends with exactly the revision's peers and addresses, swaps included, if and only if no two of them claim one address |
| PeerSync.SameStrings | internal/application/diff.go:161-175 | equal as multisets |
| PeerSync.DiffPeers | internal/application/diff.go:103-144 | creations and updates by wanted key, then deletions by observed key |
| PeerSync.NothingDiffersIff | internal/application/diff.go:103-144 | no operation is reported if and only if both sides name the same keys with the same addresses in any order |
| PeerSync.ReportedIff | internal/application/diff.go:103-144 | a creation is reported for exactly the keys only the revision names, a deletion for those only the interface carries, and an update for those whose addresses differ |
| PeerSync.ConvergedShowsNothing | internal/application/diff.go:103-144 | any dump of the interface shows no difference if and only if the interface carries exactly the revision's peers |
| IngressPlanner.BuildIngressSpec | internal/application/ingress_spec.go:19-64 | the peers in order of key, or the first thing missing; who they let in is SendersAreDevices |
| IngressPlanner.InterfaceMeetsClients | internal/application/ingress_spec.go:19-90 | the interface has the address clients resolve at, their subnet as its network, the port they connect to, and the private half of the key they were given |
| IngressPlanner.RevisionPeersApart | internal/application/ingress_spec.go:53-61 | the peers of a valid revision share neither keys nor addresses |
| IngressPlanner.PeersAreSorted | internal/application/ingress_spec.go:62-62 | the peers are in the order of their keys |
| IngressPlanner.Converge | internal/adapters/linux/ingress.go:137-157 | for every valid revision and any observed peers, a synchronisation succeeds if all its commands do, and then the interface carries exactly the revision's peers and addresses |
| IngressPlanner.NothingLeftToChange | internal/application/diff.go:103-144 | after which no dump of the interface shows a difference |
| Escaping.UnescapeEscape | internal/adapters/linux/upstreamstore.go:166-172 | percent-encoding of a user name, host or query is undone by decoding, for every byte string that part can hold |
| ShareLink.GetEncoded | internal/adapters/linux/upstreamstore.go:125-173 | every key of an encoded query reads back as its value and no other key as anything |
| ShareLink.BuildQuery | internal/adapters/linux/upstreamstore.go:125-165 | which query keys a tunnel sets |
| ShareLink.RenderVLESS | internal/adapters/linux/upstreamstore.go:125-173 | the link of a tunnel, or an error exactly when server, port or UUID is missing |
| LinkRoundTrip.WrittenLinkReads | internal/adapters/linux/vless.go:23-110 | every tunnel a link can describe reads back as itself, but for its origin and TLS settings that are off; TLS without a name takes the server's |
| LinkRoundTrip.ParsedIsFormed | internal/adapters/linux/vless.go:23-110 | every accepted link yields a tunnel a link can describe, with nothing a link would forget |
| LinkRoundTrip.ParseRenderIdentity | internal/adapters/linux/vless.go:23-110 | parsing the rendering of any parsed tunnel with a server gives that tunnel back |
| PublicEndpoint.ValidatePublicEndpoint | internal/adapters/health/public_endpoint.go:135-148 | accepts an IPv4 address exactly when it is global unicast and in none of the special-purpose blocks |
| PublicEndpoint.ListDecides | internal/adapters/health/public_endpoint.go:135-148 | the block list alone decides: the unicast test never refuses anything more |
| PublicEndpoint.PinPublicEndpoint | internal/adapters/health/public_endpoint.go:76-119 | a literal is kept, a name becomes the lowest of its answers and stays as origin, default TLS name and default Host header; an error exactly when an answer is not public or there is none, as for the empty name |
| PublicEndpoint.PinningIsFinal | internal/adapters/health/public_endpoint.go:76-119 | what is pinned is a public address among the answers, and pinning it again changes nothing whatever a later lookup says |
| PublicEndpoint.AnswersAreASet | internal/adapters/health/public_endpoint.go:101-110 | the result does not depend on the order or repetition of answers |
| SingBox.RenderSingBoxConfig | internal/adapters/linux/singbox.go:38-114 | the settings of a tunnel, or an error exactly when it is not supported; what they mean is RunningDialsTheTunnel |
| SingBox.RunningDialsTheTunnel | internal/adapters/linux/singbox.go:38-114 | a process that takes each setting from its own key dials exactly the tunnel: server, port, user, flow, names, keys and transport each where they belong; its sockets are marked and it installs no routes |
| SingBox.ConfigIsWhatIsDialled | internal/adapters/linux/singbox.go:38-114 | two supported tunnels render to the same configuration if and only if they agree on everything that is switched on |
| Subscription.PinningIsUnseen | internal/adapters/health/public_endpoint.go:76-119 | pinning changes which address is dialled and nothing a provider sees: the same name in the handshake, the same host in the web transport, every other setting as it was |
| Subscription.ReadFirstLine | internal/adapters/linux/tunnelconfig.go:143-151 | the first line that is neither blank nor a comment |
| Subscription.CommentsAreSkipped | internal/adapters/linux/tunnelconfig.go:143-151 | a blank line or comment at the top is passed over |
| Subscription.EncryptedIsItsText | internal/adapters/linux/tunnelconfig.go:100-141 | an encrypted link file is read as what it decrypts to, and not without it |
| Subscription.Load | internal/adapters/linux/tunnelconfig.go:44-111 | what the reconciler makes of a link file, failures included |
| Subscription.DeployedIsProven | internal/adapters/linux/upstreamstore.go:34-74 | for every accepted link and every pair of lookups, the configuration loaded from the stored link equals the proven one if and only if the file is not taken for an encrypted one |
| Subscription.UserTakenForMarks | internal/adapters/config/sops_secret_store.go:45-49 | a link whose user name contains the marks of an encrypted file is accepted and proven, and then cannot be loaded |
| UpstreamStore.UpstreamFile.Write | internal/adapters/linux/upstreamstore.go:34-74 | the active link is the old one or the new one, never torn; the old one is kept beside it unless it could not be read |
| UpstreamStore.UpstreamFile.Restore | internal/adapters/linux/upstreamstore.go:94-121 | what both files hold after every way it can be cut |
| UpstreamStore.RestoreOnce | internal/adapters/linux/upstreamstore.go:94-121 | both links survive if and only if it is not cut between its two writes |
| UpstreamStore.RestoreTwice | internal/adapters/linux/upstreamstore.go:94-121 | restoring twice leaves both files as they were |
| UpstreamStore.RefreshAndReconcile | internal/adapters/linux/tunnelconfig.go:81-90 | a refresh followed by a reconcile runs what was proven, under the same exact condition, and keeps the previous link |
| Notifier.NotifierState.ShouldDeliver | internal/delivery/bot/notify.go:93-120 | the decision and the whole new state of each event |
| Notifier.DeliveredIff | internal/delivery/bot/notify.go:93-120 | over any timed run, an event goes out exactly when its category is on, it is not the out-of-band notice of a rollback less than two minutes old, and its text was not delivered within its window |
| Notifier.EntriesStayYoung | internal/delivery/bot/notify.go:79-88 | after a delivered debounced event every entry left is younger than the longest window seen |
| Notifier.ForgettingIsInvisible | internal/delivery/bot/notify.go:79-120 | for every timed run over a harmless vocabulary, pruning makes exactly the decisions of a map that never forgets |
| Notifier.FixedIsHarmless | internal/delivery/bot/notify.go:79-120 | one fixed window for each key is harmless, as the shipped events have it |
| Notifier.ClashShows | internal/delivery/bot/notify.go:79-120 | any clash, rollback and out-of-band notices included, has a run on which the two differ |
| Notifier.InvisibleIffHarmless | internal/delivery/bot/notify.go:79-120 | pruning is invisible on every timed run over a vocabulary if and only if no three of its events clash |
| Notifier.Run | internal/delivery/bot/notify.go:93-120 | the running notifier's decisions are those of the map that never forgets |
| Notifier.HealthBoard.Observe | internal/delivery/bot/notify.go:214-238 | the signal and the new counts of each reading |
| Notifier.SignalsAlternate | internal/delivery/bot/notify.go:214-238 | however readings interleave, each tunnel's signals alternate, beginning with down |
| Notifier.ReportedDownIff | internal/delivery/bot/notify.go:214-238 | however readings interleave, a tunnel stands reported down exactly when it has failed twice in a row and not recovered since |
| Allocator.NextFreeAddress | internal/delivery/bot/handlers_devices.go:383-425 | proposes the lowest address above the network address that is acceptable and free, among those it tries |
| Allocator.SearchIsComplete | internal/delivery/bot/handlers_devices.go:383-425 | for subnets /16 to /30 it returns nothing if and only if every acceptable address is taken, and otherwise the lowest free one there is |
| Allocator.MissesOnlyTheNetworkAddress | internal/delivery/bot/handlers_devices.go:383-425 | for every subnet of /16 or longer the network address is never proposed, and the search comes back empty with an address free if and only if that one, on a /31 or /32, is the only one |
| Allocator.LowerOfTwoIsMissed | internal/application/validation_netip.go:46-84 | the lower address of a /31 is free, acceptable and not proposed |

## Left out

- IPv6: addresses, prefixes, bracketed and zoned hosts, and the IPv6 special-purpose blocks. The rule that drops IPv6 output is kept and never matches.
- Conntrack: whether a packet is established is given; replies to translated connections are not followed.
- Translation of outgoing packets (masquerading, the namespaces' own rulesets) and the MSS clamp, which do not affect verdicts; the clamp is a rule that changes nothing.
- SOCKS endpoints: that the filter admits permitted devices is proved, that a proxy answers behind it is not.
- The text of rulesets, resolver and unit files: rules and records are compared as structures. Lists of addresses and routes are ordered numerically where the code orders their text, which changes the order of elements and nothing else.
- Set names: sets are identified by kind and tunnel id; `SetFacts.NamesCollideOnlyAtAdmitted` says when that differs from their names.
- Route table numbers are not claimed to avoid the kernel's reserved ones.
- Fingerprints are the value they are taken of, which is what injective hashing amounts to.
- Credentials: the public half of a key, the listener's short id and the devices' credentials are function parameters; X25519, HMAC and hashing are not modelled. Keys themselves are text of the right form.
- Validation.ValidateTunnels: does not check a tunnel's source kind or its health check, which decide how it is run and not what is compiled.
- Validation.ValidateHub: does not check the endpoint's host, the fallback's host name or the AmneziaWG parameters, of which nothing here is made but the ingress interface's own settings.
- Validation.ValidateDevices: does not read profiles of older formats, and compares keys as text, so two spellings of one key, with different unused bits or line breaks, count as two.
- Validation.Validate: leaves out what the three before it do.
- Allocator.MissesOnlyTheNetworkAddress: says nothing of subnets shorter than /16, where the search gives up after 65536 addresses.
- Units and tables of older releases (the single-resolver units, the legacy prefix), which are stopped as they are found.
- The public upstream servers and cache settings of the resolvers.
- Reading upstream files: which tunnels have a usable upstream is a parameter of the compiler; of the parsers only the share link's is modelled.
- The link parser's Unicode white space and its limit of 10000 query parameters.
- The order in which a pass writes its unit files and the units' sandboxing properties.
- AmneziaWG's parameters in the ingress specification, and the setting-up of the interface beyond its peers.
- What a connection made while no table is loaded does to anything but DNS.
- Deploys nested in one another, and a confirmation racing the rollback of an expired deploy, about which the code promises nothing.
- Torn files, but for the ones written in place: a failed atomic write leaves the old file, and in `Deploy` may also take effect; the listener's and the resolvers' files may be torn.
- Several agents at once: the lock that excludes them is not modelled.
- The configuration editor, provider parsers other than the share link's, health probes, journal files, the bot's screens and the command line.
