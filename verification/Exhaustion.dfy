/** What happens when the allocator has run out of addresses. */
module Exhaustion {
  import opened Options
  import opened Netip
  import opened Ipam
  import opened Registry
  import opened RegistryRuns
  import opened RegistryServer

  /** The only host of a /32 network is its network address: the first peer is given an address outside it. */
  lemma ExhaustedPrefixRunsOn()
    ensures Allocated([], Prefix(5, 32)) == V4(6) && !Prefix(5, 32).Contains(6)
  {
  }

  /** From the prefix address to the end of IPv4 nothing is usable, and the text for "no address" is stored. */
  predicate Exhausted(rows: seq<Peer>, prefix: Prefix)
    requires prefix.Valid()
  {
    && (forall b | prefix.addr <= b < ADDRESSES :: !Usable(IpColumn(rows), prefix, b))
    && exists r | r in rows :: r.ip == Some(Invalid)
  }

  lemma StoredColumn(rows: seq<Peer>, a: Addr)
    requires a.V4?
    ensures a in IpColumn(rows) <==> exists r | r in rows :: r.ip == Some(a)
  {
    if a in IpColumn(rows) {
      var k :| 0 <= k < |rows| && IpColumn(rows)[k] == a;
      assert rows[k] in rows;
    }
    if r :| r in rows && r.ip == Some(a) {
      var k :| 0 <= k < |rows| && rows[k] == r;
      assert IpColumn(rows)[k] == a;
    }
  }

  /** A registration that nothing interrupts fails for its address exactly when the addresses are exhausted. */
  lemma UninterruptedFailsExactly(rows: seq<Peer>, prefix: Prefix)
    requires prefix.Valid()
    ensures AddressTaken(rows, Some(Allocated(IpColumn(rows), prefix))) <==> Exhausted(rows, prefix)
  {
    var a := Allocated(IpColumn(rows), prefix);
    SearchFinds(IpColumn(rows), prefix, prefix.addr);
    if a.V4? {
      StoredColumn(rows, a);
    }
  }

  // ---------------------------------------------------------------------------------------------------------
  // Runs
  // ---------------------------------------------------------------------------------------------------------

  predicate CouldBeOffered(prefix: Prefix, a: Addr)
    requires prefix.Valid()
  {
    a.V4? ==> prefix.addr <= a.n < ADDRESSES && a.n != prefix.First() && a.n != prefix.Last()
  }

  predicate Offered(s: Sys, prefix: Prefix)
    requires prefix.Valid()
  {
    forall a | a in s.handed :: CouldBeOffered(prefix, a)
  }

  lemma OfferedKept(s: Sys, prefix: Prefix, e: Event)
    requires prefix.Valid() && Offered(s, prefix)
    ensures Offered(Step(s, prefix, e), prefix)
  {
    SearchFinds(IpColumn(s.rows), prefix, prefix.addr);
  }

  lemma {:induction false} RunKeepsOffered(s: Sys, prefix: Prefix, events: seq<Event>)
    requires prefix.Valid() && Offered(s, prefix)
    ensures Offered(Run(s, prefix, events), prefix)
    decreases |events|
  {
    if events != [] {
      OfferedKept(s, prefix, events[0]);
      RunKeepsOffered(Step(s, prefix, events[0]), prefix, events[1..]);
    }
  }

  /** Every address a registration may still bring along is stored. */
  lemma PendingIsTaken(s: Sys, prefix: Prefix, p: Peer)
    requires prefix.Valid() && Offered(s, prefix) && Exhausted(s.rows, prefix)
    requires p.ip.Some? && p.ip.value in s.handed
    ensures AddressTaken(s.rows, p.ip)
  {
    var a := p.ip.value;
    if a.V4? {
      assert !Usable(IpColumn(s.rows), prefix, a.n);
      StoredColumn(s.rows, a);
    }
  }

  predicate SameAddresses(rows: seq<Peer>, after: seq<Peer>) {
    |after| == |rows| && forall k | 0 <= k < |rows| :: after[k].id == rows[k].id && after[k].ip == rows[k].ip
  }

  lemma StillExhausted(rows: seq<Peer>, after: seq<Peer>, prefix: Prefix)
    requires prefix.Valid() && Exhausted(rows, prefix) && SameAddresses(rows, after)
    ensures Exhausted(after, prefix)
  {
    assert IpColumn(after) == IpColumn(rows);
    var r :| r in rows && r.ip == Some(Invalid);
    var k :| 0 <= k < |rows| && rows[k] == r;
    assert after[k] in after;
  }

  lemma ReloginKeepsAddresses(s: Sys, p: Peer)
    requires FlightInv(s, Relogin(p))
    ensures SameAddresses(s.rows, UpdateRows(s.rows, p))
  {
    forall k | 0 <= k < |s.rows| ensures UpdateRows(s.rows, p)[k].ip == s.rows[k].ip {
      assert s.rows[k] in s.rows;
    }
  }

  lemma EndKeepsAddresses(s: Sys, prefix: Prefix, h: nat)
    requires prefix.Valid() && Inv(s) && FlightsHanded(s) && Offered(s, prefix) && Exhausted(s.rows, prefix)
    ensures SameAddresses(s.rows, Step(s, prefix, EndLogin(h)).rows)
  {
    if h in s.flights {
      assert FlightInv(s, s.flights[h]);
      match s.flights[h]
      case Refuse(_) =>
      case Relogin(p) => ReloginKeepsAddresses(s, p);
      case Enroll(p) => PendingIsTaken(s, prefix, p);
    }
  }

  lemma StepKeepsAddresses(s: Sys, prefix: Prefix, e: Event)
    requires prefix.Valid() && Inv(s) && FlightsHanded(s) && Offered(s, prefix) && Exhausted(s.rows, prefix)
    requires !e.Delete?
    ensures SameAddresses(s.rows, Step(s, prefix, e).rows)
  {
    if e.EndLogin? {
      EndKeepsAddresses(s, prefix, e.h);
    }
  }

  lemma {:induction false} RunKeepsAddresses(s: Sys, prefix: Prefix, events: seq<Event>)
    requires prefix.Valid() && Inv(s) && FlightsHanded(s) && Offered(s, prefix) && Exhausted(s.rows, prefix)
    requires forall e | e in events :: !e.Delete?
    ensures SameAddresses(s.rows, Run(s, prefix, events).rows) && Exhausted(Run(s, prefix, events).rows, prefix)
    decreases |events|
  {
    if events != [] {
      var t := Step(s, prefix, events[0]);
      assert events[0] in events && forall e | e in events[1..] :: e in events;
      StepKeepsAddresses(s, prefix, events[0]);
      StillExhausted(s.rows, t.rows, prefix);
      StepKept(s, prefix, events[0]);
      FlightsHandedKept(s, prefix, events[0]);
      OfferedKept(s, prefix, events[0]);
      RunKeepsAddresses(t, prefix, events[1..]);
    }
  }

  /** In every run, once the addresses are exhausted no registration succeeds until a record is deleted, not even one
      that was given its address before: the table keeps its records and their addresses. */
  lemma NoFurtherRegistration(clock: Time, prefix: Prefix, before: seq<Event>, after: seq<Event>)
    requires prefix.Valid() && Exhausted(Run(Empty(clock), prefix, before).rows, prefix)
    requires forall e | e in after :: !e.Delete?
    ensures var s := Run(Empty(clock), prefix, before);
            SameAddresses(s.rows, Run(s, prefix, after).rows) && Exhausted(Run(s, prefix, after).rows, prefix)
  {
    RunKeepsInv(Empty(clock), prefix, before);
    RunKeepsHanded(Empty(clock), prefix, before);
    RunKeepsOffered(Empty(clock), prefix, before);
    RunKeepsAddresses(Run(Empty(clock), prefix, before), prefix, after);
  }

  /** It happens: one registration exhausts the network of the last address. */
  lemma LastAddressExhausts(clock: Time, req: Request, user: string)
    requires ValidMachineId(req.machineId)
    ensures var prefix := Prefix(ADDRESSES - 1, 32);
            Exhausted(Run(Empty(clock), prefix, [BeginLogin(0, req, Some(user)), EndLogin(0)]).rows, prefix)
  {
    var prefix := Prefix(ADDRESSES - 1, 32);
    var s := Empty(clock);
    assert prefix.First() == ADDRESSES - 1 == prefix.Last();
    assert !Usable(IpColumn([]), prefix, ADDRESSES - 1);
    assert Search(IpColumn([]), prefix, ADDRESSES) == Invalid;
    assert Allocated(IpColumn([]), prefix) == Invalid;
    var p := Enrolled(req, user, Invalid, prefix, clock);
    var t := Step(s, prefix, BeginLogin(0, req, Some(user)));
    assert t.flights[0] == Enroll(p);
    var u := Step(t, prefix, EndLogin(0));
    assert u.rows == [p.(id := 1)];
    assert u.rows[0] in u.rows;
    var events := [BeginLogin(0, req, Some(user)), EndLogin(0)];
    assert events[1..] == [EndLogin(0)] && [EndLogin(0)][1..] == [];
    assert Run(u, prefix, []) == u && Run(t, prefix, [EndLogin(0)]) == u;
  }
}
