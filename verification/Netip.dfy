/** IPv4 addresses and CIDR blocks (section 3.1 of RFC 4632), with the operations the hub uses:
containment, masking, the successor of an address and the overlap test. */
module Netip {
  const ADDRESS_SPACE: int := 0x1_0000_0000

  type Addr = a: int | 0 <= a < ADDRESS_SPACE

  datatype Prefix = Prefix(addr: Addr, bits: nat)

  type Cidr = p: Prefix | p.bits <= 32 witness Prefix(0, 0)

  function Pow2(n: nat): (r: nat)
    ensures r > 0
  {
    if n == 0 then 1 else 2 * Pow2(n - 1)
  }

  lemma {:induction false} Pow2Adds(m: nat, n: nat)
    ensures Pow2(m + n) == Pow2(m) * Pow2(n)
  {
    if m > 0 {
      Pow2Adds(m - 1, n);
      assert Pow2(m + n) == 2 * Pow2(m - 1 + n);
    }
  }

  /** How many addresses a prefix of this length holds. */
  function BlockSize(bits: nat): (r: nat)
    requires bits <= 32
    ensures r > 0
  {
    Pow2(32 - bits)
  }

  predicate Contains(p: Cidr, a: Addr) {
    a / BlockSize(p.bits) == p.addr / BlockSize(p.bits)
  }

  function Host(a: Addr): Cidr { Prefix(a, 32) }

  lemma HostContains(a: Addr, b: Addr)
    ensures Contains(Host(a), b) <==> a == b
  {
    assert BlockSize(32) == 1;
  }

  function Masked(p: Cidr): (m: Cidr)
    ensures m.bits == p.bits
  {
    var size := BlockSize(p.bits);
    DivisionBounds(p.addr, size);
    Prefix(p.addr / size * size, p.bits)
  }

  /** A block is the run of addresses that starts at its network address. */
  lemma BlockIsInterval(p: Cidr, a: Addr)
    ensures Contains(p, a) <==> Masked(p).addr <= a < Masked(p).addr + BlockSize(p.bits)
    ensures Contains(p, a) <==> Contains(Masked(p), a)
    ensures Contains(p, Masked(p).addr)
  {
    var size := BlockSize(p.bits);
    var base := Masked(p).addr;
    DivisionBounds(a, size);
    Quotient(base, size, p.addr / size);
    if base <= a < base + size {
      Quotient(a, size, p.addr / size);
    }
  }

  lemma DivisionBounds(a: int, size: nat)
    requires size > 0
    ensures a / size * size <= a < a / size * size + size
    ensures a >= 0 ==> a / size * size >= 0
  {
    if a >= 0 {
      assert a / size >= 0;
    }
  }

  lemma ScalingIsMonotonic(x: int, y: int, size: nat)
    ensures x <= y ==> x * size <= y * size
  {
  }

  lemma Quotient(a: int, size: nat, q: int)
    requires size > 0 && q * size <= a < q * size + size
    ensures a / size == q
  {
    var d := a / size;
    DivisionBounds(a, size);
    ScalingIsMonotonic(d + 1, q, size);
    ScalingIsMonotonic(q + 1, d, size);
    assert (d + 1) * size == d * size + size && (q + 1) * size == q * size + size;
  }

  /** The overlap test, as the library states it: compare the two prefixes at the shorter length. */
  predicate Overlaps(p: Cidr, q: Cidr) {
    var minBits := if p.bits < q.bits then p.bits else q.bits;
    || p == q
    || minBits == 0
    || Masked(Prefix(p.addr, minBits)).addr == Masked(Prefix(q.addr, minBits)).addr
  }

  /** Two addresses that agree on a longer prefix agree on every shorter one. */
  lemma ShorterPrefix(a: Addr, b: Addr, short: nat, long: nat)
    requires short <= long <= 32
    requires Contains(Prefix(b, long), a)
    ensures Contains(Prefix(b, short), a)
  {
    var small, k := BlockSize(long), Pow2(long - short);
    Pow2Adds(long - short, 32 - long);
    assert BlockSize(short) == k * small;
    NestedDivision(a, small, k);
    NestedDivision(b, small, k);
  }

  lemma NestedDivision(a: nat, m: nat, k: nat)
    requires m > 0 && k > 0
    ensures k * m > 0
    ensures a / (k * m) == a / m / k
  {
    var inner := a / m;
    var q := inner / k;
    DivisionBounds(a, m);
    DivisionBounds(inner, k);
    assert k * m >= m;
    Nested(a, m, k, inner, q);
    Quotient(a, k * m, q);
  }

  lemma Reassociate(q: int, k: int, m: int)
    ensures q * (k * m) == q * k * m
    ensures (q * k + k) * m == q * k * m + k * m
  {
  }

  lemma Nested(a: nat, m: nat, k: nat, inner: nat, q: nat)
    requires inner * m <= a < inner * m + m
    requires q * k <= inner <= q * k + k - 1
    ensures q * (k * m) <= a < q * (k * m) + k * m
  {
    var qk := q * k;
    ScalingIsMonotonic(qk, inner, m);
    ScalingIsMonotonic(inner + 1, qk + k, m);
    Reassociate(q, k, m);
    assert (inner + 1) * m == inner * m + m;
  }

  lemma SameBlockSameBase(a: Addr, b: Addr, bits: nat)
    requires bits <= 32
    ensures Contains(Prefix(b, bits), a) <==> Masked(Prefix(a, bits)).addr == Masked(Prefix(b, bits)).addr
  {
    var ma, mb := Masked(Prefix(a, bits)), Masked(Prefix(b, bits));
    BlockIsInterval(Prefix(a, bits), ma.addr);
    BlockIsInterval(Prefix(b, bits), mb.addr);
  }

  lemma WholeSpace(p: Cidr, a: Addr)
    requires p.bits == 0
    ensures Contains(p, a)
  {
    assert BlockSize(0) == ADDRESS_SPACE by {
      Pow2Adds(16, 16);
      assert Pow2(16) == 65536 by { Pow2Adds(8, 8); assert Pow2(8) == 256; }
    }
  }

  /** The overlap test is exact: it holds just when some address lies in both blocks. */
  lemma OverlapsIffShared(p: Cidr, q: Cidr)
    ensures Overlaps(p, q) <==> exists a: Addr :: Contains(p, a) && Contains(q, a)
  {
    var short, long := if p.bits < q.bits then p else q, if p.bits < q.bits then q else p;
    SameBlockSameBase(p.addr, q.addr, short.bits);
    if Overlaps(p, q) {
      if short.bits == 0 {
        WholeSpace(short, long.addr);
      }
      assert Contains(short, long.addr) && Contains(long, long.addr);
    }
    if a: Addr :| Contains(p, a) && Contains(q, a) {
      ShorterPrefix(a, long.addr, short.bits, long.bits);
    }
  }
}
