/** Proposes the next free client address. */
module Allocator {
  import opened Netip
  import opened Domain
  import opened Links
  import opened FirewallPlanner
  import opened Validation

  const ATTEMPTS := 65536

  /** Taken by a device, or the hub's own. */
  predicate Used(cfg: Config, a: Addr) {
    (exists d :: d in cfg.devices && d.address.Some? && d.address.value.addr == a) || cfg.hub.dnsAddress == Some(a)
  }

  /** What validation would accept as a device's address, and nobody has. */
  predicate Free(cfg: Config, a: Addr) {
    ProfileAddress(Some(Host(a)), cfg.hub.clientCidr) && !Used(cfg, a)
  }

  method UsedAddresses(cfg: Config) returns (used: set<Addr>)
    ensures forall a :: a in used <==> Used(cfg, a)
  {
    used := {};
    for i := 0 to |cfg.devices|
      invariant forall a :: a in used <==> exists k ::
        0 <= k < i && cfg.devices[k].address.Some? && cfg.devices[k].address.value.addr == a
    {
      if cfg.devices[i].address.Some? { used := used + {cfg.devices[i].address.value.addr}; }
    }
    if cfg.hub.dnsAddress.Some? { used := used + {cfg.hub.dnsAddress.value}; }
  }

  /** Within a subnet, above its network address, the one address validation refuses is the last. */
  lemma RefusedOnlyLast(p: Cidr, a: Addr)
    requires Contains(p, a) && a > Masked(p).addr
    ensures !ProfileAddress(Some(Host(a)), Some(p)) <==> p.bits < 31 && a + 1 == Masked(p).addr + BlockSize(p.bits)
  {
    BlockIsInterval(p, a);
    if a + 1 < ADDRESS_SPACE { BlockIsInterval(p, a + 1); } else { BlockEndsInSpace(p); }
  }

  lemma BlockEndsInSpace(p: Cidr)
    ensures Masked(p).addr + BlockSize(p.bits) <= ADDRESS_SPACE
  {
    hide Pow2;
    SpaceIsPow2();
    Pow2Adds(p.bits, 32 - p.bits);
    LastBlock(p.addr, BlockSize(p.bits), Pow2(p.bits));
  }

  lemma LastBlock(a: nat, size: nat, count: nat)
    requires size > 0 && a < count * size
    ensures a / size * size + size <= count * size
  {
    var q := a / size;
    DivisionBounds(a, size);
    ScalingIsMonotonic(count, q, size);
    ScalingIsMonotonic(q + 1, count, size);
    assert (q + 1) * size == q * size + size;
  }

  lemma SpaceIsPow2()
    ensures Pow2(32) == ADDRESS_SPACE
  {
    assert Pow2(8) == 256;
    Pow2Adds(8, 8);
    Pow2Adds(16, 16);
  }

  /** The lowest free address above the network address; none when none of the first 65536 above it
  is free. */
  ghost predicate Proposes(cfg: Config, r: Option<Addr>) {
    if cfg.hub.clientCidr.None? then r == None
    else
      var base := Masked(cfg.hub.clientCidr.value).addr;
      if r.Some? then base < r.value && Free(cfg, r.value) && forall a: Addr :: base < a < r.value ==> !Free(cfg, a)
      else forall a: Addr :: base < a <= base + ATTEMPTS ==> !Free(cfg, a)
  }

  /** Ascends one address at a time; the first refusal past the last usable address ends the search. */
  method NextFreeAddress(cfg: Config) returns (r: Option<Addr>)
    ensures Proposes(cfg, r)
  {
    hide Used, ProfileAddress, Contains, Masked;
    if cfg.hub.clientCidr.None? { return None; }
    var p := cfg.hub.clientCidr.value;
    var used := UsedAddresses(cfg);
    var base := Masked(p).addr;
    var address: Addr := base;
    for step := 0 to ATTEMPTS
      invariant address == base + step && forall a: Addr :: base < a <= address ==> !Free(cfg, a)
    {
      var next := Next(address);
      if !InBlock(p, next) {
        forall a: Addr | address < a ensures !Free(cfg, a) { NothingAbove(cfg, p, address, a); }
        return None;
      }
      address := next.value;
      if address in used { continue; }
      if !ProfileAddress(Some(Host(address)), cfg.hub.clientCidr) {
        forall a: Addr | address < a ensures !Free(cfg, a) { RefusalIsFinal(cfg, p, address, a); }
        return None;
      }
      return Some(address);
    }
    return None;
  }

  lemma NothingAbove(cfg: Config, p: Cidr, address: Addr, a: Addr)
    requires cfg.hub.clientCidr == Some(p) && Masked(p).addr <= address < a && !InBlock(p, Next(address))
    ensures !Free(cfg, a)
  {
    hide Used;
    BlockIsInterval(p, a);
    BlockIsInterval(p, address + 1);
  }

  lemma RefusalIsFinal(cfg: Config, p: Cidr, address: Addr, a: Addr)
    requires cfg.hub.clientCidr == Some(p) && Contains(p, address) && Masked(p).addr < address < a
    requires !ProfileAddress(Some(Host(address)), Some(p))
    ensures !Free(cfg, a)
  {
    hide Used;
    RefusedOnlyLast(p, address);
    BlockIsInterval(p, a);
  }

  lemma {:induction false} Pow2Grows(m: nat, n: nat)
    requires m <= n
    ensures Pow2(m) <= Pow2(n)
  {
    if m < n { Pow2Grows(m, n - 1); }
  }

  /** Every acceptable address of a /16 or longer is among the ones tried, the network address aside,
  which only a /31 or /32 lets a device have. */
  lemma AcceptableIsTried(cfg: Config, a: Addr)
    requires cfg.hub.clientCidr.Some? && 16 <= cfg.hub.clientCidr.value.bits && Free(cfg, a)
    ensures var base := Masked(cfg.hub.clientCidr.value).addr;
      base < a <= base + ATTEMPTS || (a == base && cfg.hub.clientCidr.value.bits >= 31)
  {
    hide Used;
    var p := cfg.hub.clientCidr.value;
    BlockIsInterval(p, a);
    Pow2Grows(32 - p.bits, 16);
    assert Pow2(8) == 256;
    Pow2Adds(8, 8);
  }

  /** For those subnets the search is complete and minimal: it fails only when every acceptable
  address is taken, and what it proposes is the lowest free address there is. */
  lemma SearchIsComplete(cfg: Config, r: Option<Addr>)
    requires Proposes(cfg, r) && cfg.hub.clientCidr.Some? && 16 <= cfg.hub.clientCidr.value.bits <= 30
    ensures r.None? <==> forall a: Addr :: ProfileAddress(Some(Host(a)), cfg.hub.clientCidr) ==> Used(cfg, a)
    ensures r.Some? ==> Free(cfg, r.value) && forall a: Addr :: a < r.value ==> !Free(cfg, a)
  {
    hide Used, ProfileAddress, Contains, Masked;
    forall a: Addr | Free(cfg, a)
      ensures Masked(cfg.hub.clientCidr.value).addr < a <= Masked(cfg.hub.clientCidr.value).addr + ATTEMPTS
    {
      AcceptableIsTried(cfg, a);
    }
    if r.Some? { assert ProfileAddress(Some(Host(r.value)), cfg.hub.clientCidr); }
    forall a: Addr ensures Free(cfg, a) <==> ProfileAddress(Some(Host(a)), cfg.hub.clientCidr) && !Used(cfg, a) {}
  }

  /** On longer prefixes it misses one address and no other: the network address is never proposed,
  so the search comes back empty-handed for nothing just when that address is the only free one, on
  a /31 or /32, where validation accepts it. */
  lemma MissesOnlyTheNetworkAddress(cfg: Config, r: Option<Addr>)
    requires Proposes(cfg, r) && cfg.hub.clientCidr.Some? && 16 <= cfg.hub.clientCidr.value.bits
    ensures var p := cfg.hub.clientCidr.value;
      && r != Some(Masked(p).addr)
      && ((r.None? ==> forall a: Addr :: !Free(cfg, a)) <==>
            !(p.bits >= 31 && Free(cfg, Masked(p).addr) && forall a: Addr :: a != Masked(p).addr ==> !Free(cfg, a)))
  {
    hide Free, Masked;
    var p := cfg.hub.clientCidr.value;
    forall a: Addr | Free(cfg, a)
      ensures Masked(p).addr < a <= Masked(p).addr + ATTEMPTS || (a == Masked(p).addr && p.bits >= 31)
    {
      AcceptableIsTried(cfg, a);
    }
  }

  /** A /31 whose upper address is the hub's: the lower one is free and nothing is proposed. */
  lemma LowerOfTwoIsMissed(cfg: Config, r: Option<Addr>)
    requires cfg.hub.clientCidr == Some(Prefix(0x0A50_0000, 31)) && cfg.hub.dnsAddress == Some(0x0A50_0001)
      && cfg.devices == []
    requires Proposes(cfg, r)
    ensures r == None && Free(cfg, 0x0A50_0000)
  {
    hide BlockSize;
    var p := cfg.hub.clientCidr.value;
    TwoAddresses();
    if r.Some? { BlockIsInterval(p, r.value); }
  }

  lemma TwoAddresses()
    ensures BlockSize(31) == 2
  {
    assert Pow2(1) == 2 * Pow2(0);
  }
}
