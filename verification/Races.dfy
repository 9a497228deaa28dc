/** Registrations that interleave: an address is chosen when a request is read and stored when it is written, and
    another request may have stored it in between. */
module Races {
  import opened Options
  import opened Netip
  import opened Ipam
  import opened Registry
  import opened RegistryRuns
  import opened RegistryServer
  import opened Exhaustion

  function After(s: Sys, prefix: Prefix, events: seq<Event>, j: nat): Sys
    requires prefix.Valid() && j <= |events|
  {
    Run(s, prefix, events[..j])
  }

  predicate Taken(s: Sys, ip: Option<Addr>) {
    AddressTaken(s.rows, ip)
  }

  /** The k-th event is the write of a registration that stores the address, and since then the address has been
      stored all the time. */
  predicate StoredBy(s: Sys, prefix: Prefix, events: seq<Event>, k: nat, ip: Option<Addr>)
    requires prefix.Valid()
  {
    && k < |events| && events[k].EndLogin?
    && !Taken(After(s, prefix, events, k), ip)
    && events[k].h in After(s, prefix, events, k).flights
    && After(s, prefix, events, k).flights[events[k].h].Enroll?
    && After(s, prefix, events, k).flights[events[k].h].peer.ip == ip
    && forall j | k < j <= |events| :: Taken(After(s, prefix, events, j), ip)
  }

  lemma {:induction false} RunLast(s: Sys, prefix: Prefix, events: seq<Event>)
    requires prefix.Valid() && events != []
    ensures Run(s, prefix, events) == Step(Run(s, prefix, events[..|events| - 1]), prefix, events[|events| - 1])
    decreases |events|
  {
    if |events| > 1 {
      RunLast(Step(s, prefix, events[0]), prefix, events[1..]);
      assert events[1..][..|events| - 2] == events[..|events| - 1][1..];
    } else {
      assert events[..0] == [] && events[1..] == [];
    }
  }

  /** Only the write of a registration stores an address that was not stored. */
  lemma OnlyInsertsStore(s: Sys, prefix: Prefix, e: Event, ip: Option<Addr>)
    requires prefix.Valid() && Inv(s) && !Taken(s, ip) && Taken(Step(s, prefix, e), ip)
    ensures e.EndLogin? && e.h in s.flights && s.flights[e.h].Enroll? && s.flights[e.h].peer.ip == ip
  {
    var t := Step(s, prefix, e);
    var q :| q in t.rows && q.ip == ip;
    RowsOfStep(s, prefix, e, q);
  }

  lemma {:induction false} TakenSince(s: Sys, prefix: Prefix, events: seq<Event>, ip: Option<Addr>) returns (k: nat)
    requires prefix.Valid() && Inv(s) && !Taken(s, ip) && Taken(Run(s, prefix, events), ip)
    ensures StoredBy(s, prefix, events, k, ip)
    decreases |events|
  {
    var n := |events| - 1;
    assert events != [];
    RunLast(s, prefix, events);
    var u := Run(s, prefix, events[..n]);
    assert events[..|events|] == events;
    RunKeepsInv(s, prefix, events[..n]);
    if Taken(u, ip) {
      k := TakenSince(s, prefix, events[..n], ip);
      assert forall j | 0 <= j <= n :: events[..n][..j] == events[..j];
      forall j | k < j <= |events| ensures Taken(After(s, prefix, events, j), ip) {
        if j <= n {
          assert Taken(After(s, prefix, events[..n], j), ip);
        }
      }
    } else {
      OnlyInsertsStore(u, prefix, events[n], ip);
      k := n;
    }
  }

  predicate LeavesAlone(events: seq<Event>, h: nat) {
    forall e | e in events :: !(e.BeginLogin? && e.h == h) && !(e.EndLogin? && e.h == h)
  }

  lemma {:induction false} StillPending(s: Sys, prefix: Prefix, events: seq<Event>, h: nat)
    requires prefix.Valid() && LeavesAlone(events, h) && h in s.flights
    ensures h in Run(s, prefix, events).flights && Run(s, prefix, events).flights[h] == s.flights[h]
    decreases |events|
  {
    if events != [] {
      assert events[0] in events && forall e | e in events[1..] :: e in events;
      StillPending(Step(s, prefix, events[0]), prefix, events[1..], h);
    }
  }

  /** An address that was chosen while addresses were left is not stored at that moment. */
  lemma ChosenIsFree(s: Sys, prefix: Prefix)
    requires prefix.Valid() && !Exhausted(s.rows, prefix)
    ensures !Taken(s, Some(Allocated(IpColumn(s.rows), prefix)))
  {
    UninterruptedFailsExactly(s.rows, prefix);
  }

  /** In every run, a registration read in state s and written in state t fails for its address exactly when some row of
      t has it.  Unless the addresses were exhausted in s, that is the case exactly when the write of another
      registration in between stored this address and it has been stored ever since. */
  lemma RegistrationFailsExactly(clock: Time, prefix: Prefix, before: seq<Event>, h: nat, req: Request,
                                 token: Option<string>, between: seq<Event>)
    requires prefix.Valid() && LeavesAlone(between, h)
    requires var s := Run(Empty(clock), prefix, before); Login(s.rows, req, token, prefix, s.clock).Enroll?
    ensures var s := Run(Empty(clock), prefix, before);
            var p := Login(s.rows, req, token, prefix, s.clock).peer;
            var begun := Step(s, prefix, BeginLogin(h, req, token));
            var t := Run(begun, prefix, between);
            && Step(t, prefix, EndLogin(h)).rows == (if Taken(t, p.ip) then t.rows else t.rows + [p.(id := t.nextId)])
            && (!Exhausted(s.rows, prefix) ==>
                  (Taken(t, p.ip) <==> exists k: nat :: StoredBy(begun, prefix, between, k, p.ip)))
  {
    var s := Run(Empty(clock), prefix, before);
    var p := Login(s.rows, req, token, prefix, s.clock).peer;
    var begun := Step(s, prefix, BeginLogin(h, req, token));
    var t := Run(begun, prefix, between);
    RunKeepsInv(Empty(clock), prefix, before);
    StepKept(s, prefix, BeginLogin(h, req, token));
    StillPending(begun, prefix, between, h);
    if !Exhausted(s.rows, prefix) {
      ChosenIsFree(s, prefix);
      if Taken(t, p.ip) {
        var k := TakenSince(begun, prefix, between, p.ip);
      }
      if k: nat :| StoredBy(begun, prefix, between, k, p.ip) {
        assert between[..|between|] == between;
        assert Taken(After(begun, prefix, between, |between|), p.ip);
      }
    }
  }

  /** Two new machines that are both read before either is written: the second one fails, with addresses left. */
  lemma ConcurrentRegistrationsCollide(s: Sys, prefix: Prefix, h: nat, req: Request, user: string,
                                       g: nat, other: Request, otherUser: string)
    requires prefix.Valid() && h != g && !Exhausted(s.rows, prefix)
    requires Login(s.rows, req, Some(user), prefix, s.clock).Enroll?
    requires Login(s.rows, other, Some(otherUser), prefix, s.clock).Enroll?
    ensures var begun := Step(s, prefix, BeginLogin(h, req, Some(user)));
            var t := Step(begun, prefix, BeginLogin(g, other, Some(otherUser)));
            var u := Step(t, prefix, EndLogin(h));
            && u.rows == s.rows + [Login(s.rows, req, Some(user), prefix, s.clock).peer.(id := s.nextId)]
            && Step(u, prefix, EndLogin(g)).rows == u.rows
  {
    ChosenIsFree(s, prefix);
    var t := Step(Step(s, prefix, BeginLogin(h, req, Some(user))), prefix, BeginLogin(g, other, Some(otherUser)));
    var u := Step(t, prefix, EndLogin(h));
    var stored := Login(s.rows, req, Some(user), prefix, s.clock).peer.(id := s.nextId);
    assert u.rows == s.rows + [stored];
    assert u.rows[|s.rows|] == stored && stored in u.rows;
  }

  lemma FourSteps(s: Sys, prefix: Prefix, a: Event, b: Event, c: Event, d: Event)
    requires prefix.Valid()
    ensures Run(s, prefix, [a, b, c, d]) == Step(Step(Step(Step(s, prefix, a), prefix, b), prefix, c), prefix, d)
  {
    assert [a, b, c, d][1..] == [b, c, d] && [b, c, d][1..] == [c, d] && [c, d][1..] == [d] && [d][1..] == [];
    var t := Step(Step(s, prefix, a), prefix, b);
    assert Run(t, prefix, [c, d]) == Run(Step(t, prefix, c), prefix, [d]);
    var u := Step(Step(t, prefix, c), prefix, d);
    assert Run(u, prefix, []) == u;
  }

  /** It happens in a network with room for 254 peers. */
  lemma RaceInEmptyNetwork(clock: Time, req: Request, other: Request, user: string)
    requires ValidMachineId(req.machineId) && ValidMachineId(other.machineId)
    ensures var prefix := Prefix(0, 24);
            var events := [BeginLogin(0, req, Some(user)), BeginLogin(1, other, Some(user)), EndLogin(0), EndLogin(1)];
            var s := Run(Empty(clock), prefix, events);
            |s.rows| == 1 && s.flights == map[] && HasRoom(s, prefix)
  {
    var prefix, s := Prefix(0, 24), Empty(clock);
    assert prefix.Size() == 256 && prefix.First() == 0 by {
      assert Pow2(8) == 256;
    }
    assert Usable(IpColumn([]), prefix, 1);
    assert !Exhausted(s.rows, prefix);
    ConcurrentRegistrationsCollide(s, prefix, 0, req, user, 1, other, user);
    var a, b, c, d := BeginLogin(0, req, Some(user)), BeginLogin(1, other, Some(user)), EndLogin(0), EndLogin(1);
    FourSteps(s, prefix, a, b, c, d);
    var t := Step(Step(s, prefix, a), prefix, b);
    assert t.peak == 0 && Step(t, prefix, c).peak == 1;
  }
}
