/** First-fit allocation of overlay addresses. */
module Ipam {
  import opened Netip

  /** An address as netip has it: the zero value is what follows the last address, prints as text that does not parse,
      and is in no set. */
  datatype Addr = Invalid | V4(n: nat)

  function Following(a: Addr): Addr {
    if a.V4? && a.n + 1 < ADDRESSES then V4(a.n + 1) else Invalid
  }

  /** The addresses of a column that parse, in order. */
  function Parsed(column: seq<Addr>): seq<nat> {
    if column == [] then []
    else
      var k := |column| - 1;
      Parsed(column[..k]) + if column[k].V4? then [column[k].n] else []
  }

  lemma {:induction false} ParsedExactly(column: seq<Addr>, a: nat)
    ensures a in Parsed(column) <==> V4(a) in column
  {
    if column != [] {
      var k := |column| - 1;
      ParsedExactly(column[..k], a);
      assert column == column[..k] + [column[k]];
    }
  }

  /** Neither the network or broadcast address nor stored. */
  predicate Usable(column: seq<Addr>, p: Prefix, a: nat)
    requires p.Valid()
  {
    a != p.First() && a != p.Last() && V4(a) !in column
  }

  /** The least usable address at or above the address of the prefix, wherever it is; Invalid when there is none up to
      the end of the address space. */
  ghost predicate FirstFit(column: seq<Addr>, p: Prefix, r: Addr)
    requires p.Valid()
  {
    match r
    case V4(a) => p.addr <= a < ADDRESSES && Usable(column, p, a) && forall b | p.addr <= b < a :: !Usable(column, p, b)
    case Invalid => forall b | p.addr <= b < ADDRESSES :: !Usable(column, p, b)
  }

  /** The first usable address from `from` on. */
  function Search(column: seq<Addr>, p: Prefix, from: nat): Addr
    requires p.Valid() && from <= ADDRESSES
    decreases ADDRESSES - from
  {
    if from == ADDRESSES then Invalid
    else if Usable(column, p, from) then V4(from)
    else Search(column, p, from + 1)
  }

  function Allocated(column: seq<Addr>, p: Prefix): Addr
    requires p.Valid()
  {
    Search(column, p, p.addr)
  }

  lemma {:induction false} SearchFinds(column: seq<Addr>, p: Prefix, from: nat)
    requires p.Valid() && p.addr <= from <= ADDRESSES
    requires forall b | p.addr <= b < from :: !Usable(column, p, b)
    ensures FirstFit(column, p, Search(column, p, from))
    decreases ADDRESSES - from
  {
    if from < ADDRESSES && !Usable(column, p, from) {
      SearchFinds(column, p, from + 1);
    }
  }

  lemma FirstFitIsUnique(column: seq<Addr>, p: Prefix, r: Addr, q: Addr)
    requires p.Valid() && FirstFit(column, p, r) && FirstFit(column, p, q)
    ensures r == q
  {
    if r.V4? && q.V4? {
      assert Usable(column, p, r.n) && Usable(column, p, q.n);
    }
  }

  method GetAllocatedIPs(column: seq<Addr>) returns (allocatedIPs: seq<nat>)
    ensures allocatedIPs == Parsed(column)
  {
    allocatedIPs := [];
    for k := 0 to |column|
      invariant allocatedIPs == Parsed(column[..k])
    {
      assert column[..k + 1][..k] == column[..k];
      if column[k].V4? {
        allocatedIPs := allocatedIPs + [column[k].n];
      }
    }
    assert column[..|column|] == column;
  }

  method AllocatePeerIP(column: seq<Addr>, prefix: Prefix) returns (r: Addr)
    requires prefix.Valid()
    ensures FirstFit(column, prefix, r) && r == Allocated(column, prefix)
  {
    var allocatedIPs := GetAllocatedIPs(column);
    var ipSet := {prefix.First(), prefix.Last()};
    for k := 0 to |allocatedIPs|
      invariant forall a :: a in ipSet <==> a == prefix.First() || a == prefix.Last() || a in allocatedIPs[..k]
    {
      ipSet := ipSet + {allocatedIPs[k]};
    }
    forall a
      ensures a in ipSet <==> !Usable(column, prefix, a)
    {
      ParsedExactly(column, a);
    }
    r := V4(prefix.addr);
    while r.V4? && r.n in ipSet
      invariant r.V4? ==> prefix.addr <= r.n < ADDRESSES
      invariant forall b | prefix.addr <= b < (if r.V4? then r.n else ADDRESSES) :: !Usable(column, prefix, b)
      decreases if r.V4? then ADDRESSES - r.n else 0
    {
      r := Following(r);
    }
    SearchFinds(column, prefix, prefix.addr);
    FirstFitIsUnique(column, prefix, r, Allocated(column, prefix));
  }

  /** The address handed out lies in the network exactly when the network has a usable address from the prefix address
      on.  When it has none the allocation does not fail: it runs past the end of the network. */
  lemma InsideExactly(column: seq<Addr>, p: Prefix, r: Addr)
    requires p.Valid() && FirstFit(column, p, r)
    ensures (r.V4? && p.Contains(r.n)) <==> exists a :: p.addr <= a <= p.Last() && Usable(column, p, a)
  {
    LastIsAddress(p);
  }

  // ---------------------------------------------------------------------------------------------------------
  // Counting
  // ---------------------------------------------------------------------------------------------------------

  lemma {:induction false} IntervalFits(lo: nat, hi: nat, s: set<nat>)
    requires lo <= hi && forall a | lo <= a < hi :: a in s
    ensures hi - lo <= |s|
    decreases hi
  {
    if lo < hi {
      IntervalFits(lo, hi - 1, s - {hi - 1});
    }
  }

  /** The stored addresses of a network that a peer could have. */
  function StoredIn(column: seq<Addr>, p: Prefix): set<nat>
    requires p.Valid()
  {
    set a | a in Parsed(column) && p.First() < a < p.Last()
  }

  lemma StoredInExactly(column: seq<Addr>, p: Prefix, a: nat)
    requires p.Valid()
    ensures a in StoredIn(column, p) <==> V4(a) in column && p.First() < a < p.Last()
  {
    ParsedExactly(column, a);
  }

  /** A masked network of at most 30 bits that stores fewer addresses than it has for peers gets the new one inside,
      and no further from its start than the addresses stored. */
  lemma RoomMeansInside(column: seq<Addr>, p: Prefix, r: Addr)
    requires p.Valid() && p.Masked() && p.bits <= 30 && FirstFit(column, p, r)
    requires |StoredIn(column, p)| < p.Size() - 2
    ensures r.V4? && p.First() < r.n < p.Last()
    ensures r.n <= p.First() + 1 + |StoredIn(column, p)|
  {
    LastIsAddress(p);
    var stop := if r.V4? && r.n < p.Last() then r.n else p.Last();
    forall a | p.First() + 1 <= a < stop
      ensures a in StoredIn(column, p)
    {
      assert !Usable(column, p, a);
      StoredInExactly(column, p, a);
    }
    assert r.V4? ==> Usable(column, p, r.n);
    IntervalFits(p.First() + 1, stop, StoredIn(column, p));
  }
}
