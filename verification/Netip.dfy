/** IPv4 addresses and prefixes as numbers. */
module Netip {

  const ADDRESSES: nat := 0x1_0000_0000

  function Pow2(n: nat): (r: nat)
    ensures r >= 1
  {
    if n == 0 then 1 else 2 * Pow2(n - 1)
  }

  lemma Pow2Of32()
    ensures Pow2(32) == ADDRESSES
  {
    assert Pow2(8) == 0x100;
    assert Pow2(16) == 0x1_0000;
    assert Pow2(24) == 0x100_0000;
  }

  /** The address with its low k bits cleared. */
  function Floor(a: nat, k: nat): (r: nat)
    ensures r <= a < r + Pow2(k)
    decreases k
  {
    if k == 0 then a else 2 * Floor(a / 2, k - 1)
  }

  /** The address without its low k bits. */
  function Leading(a: nat, k: nat): nat
    decreases k
  {
    if k == 0 then a else Leading(a / 2, k - 1)
  }

  /** An address with a prefix length; the host bits of the address need not be zero. */
  datatype Prefix = Prefix(addr: nat, bits: nat)
  {
    predicate Valid() {
      addr < ADDRESSES && bits <= 32
    }

    function Size(): (r: nat)
      requires Valid()
      ensures r >= 1
    {
      Pow2(32 - bits)
    }

    /** The network address. */
    function First(): (r: nat)
      requires Valid()
      ensures r <= addr < r + Size()
    {
      Floor(addr, 32 - bits)
    }

    /** The broadcast address. */
    function Last(): (r: nat)
      requires Valid()
      ensures addr <= r
    {
      First() + Size() - 1
    }

    predicate Contains(a: nat)
      requires Valid()
    {
      First() <= a <= Last()
    }

    /** An address inside the network other than the prefix's own. */
    predicate Reaches(a: nat) {
      Valid() && a != addr && Contains(a)
    }

    predicate Masked()
      requires Valid()
    {
      First() == addr
    }
  }

  lemma {:induction false} FloorEnds(a: nat, k: nat, n: nat)
    requires k <= n && a < Pow2(n)
    ensures Floor(a, k) + Pow2(k) <= Pow2(n)
    decreases k
  {
    if k > 0 {
      FloorEnds(a / 2, k - 1, n - 1);
    }
  }

  /** A prefix does not reach past the end of the address space. */
  lemma LastIsAddress(p: Prefix)
    requires p.Valid()
    ensures p.Last() < ADDRESSES
  {
    Pow2Of32();
    FloorEnds(p.addr, 32 - p.bits, 32);
  }

  lemma {:induction false} FloorByLeading(a: nat, b: nat, k: nat)
    ensures Floor(a, k) <= b < Floor(a, k) + Pow2(k) <==> Leading(a, k) == Leading(b, k)
    decreases k
  {
    if k > 0 {
      FloorByLeading(a / 2, b / 2, k - 1);
    }
  }

  lemma ContainsByFloor(p: Prefix, a: nat, k: nat)
    requires p.Valid() && k == 32 - p.bits
    ensures p.Contains(a) <==> Floor(p.addr, k) <= a < Floor(p.addr, k) + Pow2(k)
  {
  }

  /** Two addresses are in the same network exactly when their leading bits agree. */
  lemma ContainsByLeading(p: Prefix, a: nat)
    requires p.Valid()
    ensures p.Contains(a) <==> Leading(a, 32 - p.bits) == Leading(p.addr, 32 - p.bits)
  {
    ContainsByFloor(p, a, 32 - p.bits);
    FloorByLeading(p.addr, a, 32 - p.bits);
  }
}
