/** The point-to-point links between the main namespace and each tunnel's: one /30 per tunnel,
carved in order out of 10.90.0.0/16. */
module Links {
  import opened Netip
  import opened Domain

  const LINK_BASE: Cidr := Prefix(173670400, 16) // 10.90.0.0/16
  const LINK_LIMIT := 16384
  const ROUTE_TABLE_BASE := 100
  const SOCKS_PORT_BASE := 11080
  const DIRECT_MARK := 0x100

  datatype Link = Link(host: Addr, peer: Addr)

  function Next(a: Addr): Option<Addr> {
    if a + 1 < ADDRESS_SPACE then Some(a + 1) else None
  }

  ghost function BlockEnd(base: Cidr): int {
    Masked(base).addr + BlockSize(base.bits)
  }

  /** The index-th link of a base block, when the block still has room for it. */
  ghost function LinkOf(base: Cidr, index: nat): Result<Link> {
    var host := base.addr + 4 * index + 1;
    if host + 1 < BlockEnd(base) && host + 1 < ADDRESS_SPACE then Ok(Link(host, host + 1)) else Err(OutOfLinkAddresses)
  }

  predicate InBlock(base: Cidr, a: Option<Addr>) {
    a.Some? && Contains(base, a.value)
  }

  lemma InBlockIsBelowEnd(base: Cidr, a: Addr)
    requires base.addr <= a
    ensures Contains(base, a) <==> a < BlockEnd(base)
  {
    BlockIsInterval(base, a);
    BlockIsInterval(base, base.addr);
  }

  /** Steps an address through the block, one at a time, as the layout does. */
  method LinkAddresses(base: Cidr, index: nat) returns (r: Result<Link>)
    ensures r == LinkOf(base, index)
  {
    var offset := index * 4;
    var address := base.addr;
    for step := 0 to offset
      invariant address == base.addr + step
    {
      var next := Next(address);
      if next.Some? { InBlockIsBelowEnd(base, next.value); }
      if !InBlock(base, next) {
        return Err(OutOfLinkAddresses);
      }
      address := next.value;
    }
    var host := Next(address);
    if host.None? { return Err(OutOfLinkAddresses); }
    var peer := Next(host.value);
    if peer.Some? { InBlockIsBelowEnd(base, peer.value); }
    if !InBlock(base, peer) {
      return Err(OutOfLinkAddresses);
    }
    return Ok(Link(host.value, peer.value));
  }

  lemma LinkBaseExtent()
    ensures Masked(LINK_BASE).addr == LINK_BASE.addr
    ensures BlockSize(LINK_BASE.bits) == 65536
  {
    Pow2Adds(8, 8);
    assert Pow2(8) == 256;
    Quotient(LINK_BASE.addr, 65536, 2650);
  }

  /** The links of the hub: there is one for an index just when the index is below 16384. */
  lemma LinkExists(index: nat)
    ensures LinkOf(LINK_BASE, index).Ok? <==> index < LINK_LIMIT
    ensures index < LINK_LIMIT ==>
      LinkOf(LINK_BASE, index) == Ok(Link(LINK_BASE.addr + 4 * index + 1, LINK_BASE.addr + 4 * index + 2))
  {
    LinkBaseExtent();
  }

  /** The /30 a link occupies. */
  function LinkBlock(index: nat): Cidr
    requires index < LINK_LIMIT
  {
    Prefix(LINK_BASE.addr + 4 * index, 30)
  }

  lemma LinkBlockExtent(index: nat, a: Addr)
    requires index < LINK_LIMIT
    ensures Contains(LinkBlock(index), a) <==> LINK_BASE.addr + 4 * index <= a < LINK_BASE.addr + 4 * index + 4
  {
    var p := LinkBlock(index);
    assert BlockSize(30) == 4 by { assert Pow2(2) == 2 * Pow2(1); assert Pow2(1) == 2 * Pow2(0); }
    BlockIsInterval(p, a);
    Quotient(p.addr, 4, 43417600 + index);
  }

  /** Both ends of a link lie in its own /30, inside the link base, and are distinct; different
  links share no address at all. */
  lemma LinksAreDisjoint(i: nat, j: nat, a: Addr)
    requires i < LINK_LIMIT && j < LINK_LIMIT
    ensures var l := LinkOf(LINK_BASE, i);
      && l.Ok? && l.value.host != l.value.peer
      && Contains(LinkBlock(i), l.value.host) && Contains(LinkBlock(i), l.value.peer)
    ensures Contains(LinkBlock(i), a) ==> Contains(LINK_BASE, a)
    ensures Contains(LinkBlock(i), a) && Contains(LinkBlock(j), a) ==> i == j
  {
    LinkExists(i);
    var l := LinkOf(LINK_BASE, i).value;
    LinkBlockExtent(i, l.host);
    LinkBlockExtent(i, l.peer);
    LinkBlockExtent(i, a);
    LinkBlockExtent(j, a);
    LinkBaseExtent();
    BlockIsInterval(LINK_BASE, a);
  }
}
