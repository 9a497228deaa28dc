/** What every run of the controller's handlers keeps, however their reads and writes interleave. */
module RegistryRuns {
  import opened Options
  import opened Netip
  import opened Ipam
  import opened Registry

  predicate Identity(p: Peer, q: Peer) {
    p.id == q.id && p.machineId == q.machineId && p.ip == q.ip && p.prefix == q.prefix && p.user == q.user
  }

  predicate Authenticated(s: Sys, p: Peer) {
    Validation(p.user, p.lastAuth) in s.validated && p.lastAuth <= s.clock
  }

  predicate TableInv(s: Sys) {
    && (forall i, j | 0 <= i < j < |s.rows| :: s.rows[i].id < s.rows[j].id)
    && (forall i, j | 0 <= i < j < |s.rows| :: s.rows[i].ip != s.rows[j].ip)
    && (forall r | r in s.rows :: r.id < s.nextId && r.ip.Some?)
    && |s.rows| <= s.peak
  }

  predicate AuthInv(s: Sys) {
    forall r | r in s.rows :: Authenticated(s, r)
  }

  /** A record on its way back to the table still identifies the row it came from, if that is still there. */
  predicate FlightInv(s: Sys, d: Decision) {
    match d
    case Refuse(_) => true
    case Relogin(p) =>
      Authenticated(s, p) && p.id < s.nextId && p.ip.Some? && forall r | r in s.rows && r.id == p.id :: Identity(r, p)
    case Enroll(p) =>
      Authenticated(s, p) && p.ip.Some?
  }

  predicate FlightsInv(s: Sys) {
    forall h | h in s.flights :: FlightInv(s, s.flights[h])
  }

  /** The stream's owner had a token validated within the window. */
  predicate WithinWindow(s: Sys, o: Opened) {
    && Validation(o.peer.user, o.peer.lastAuth) in s.validated
    && o.peer.lastAuth <= o.time < o.peer.lastAuth + AUTH_DAYS * DAY
  }

  predicate Inv(s: Sys) {
    && TableInv(s) && AuthInv(s) && FlightsInv(s)
    && forall o | o in s.streams :: WithinWindow(s, o)
  }

  lemma {:induction false} FoundInTable(rows: seq<Peer>, machineId: string)
    ensures FindMachine(rows, machineId).Some? ==>
              FindMachine(rows, machineId).value in rows && FindMachine(rows, machineId).value.machineId == machineId
  {
    if rows != [] && rows[0].machineId != machineId {
      FoundInTable(rows[1..], machineId);
    }
  }

  // ---------------------------------------------------------------------------------------------------------
  // Steps
  // ---------------------------------------------------------------------------------------------------------

  lemma {:induction false} DeletedRows(rows: seq<Peer>, id: nat)
    ensures |DeleteId(rows, id)| <= |rows|
    ensures forall r | r in DeleteId(rows, id) :: r in rows && r.id != id
  {
    if rows != [] {
      DeletedRows(rows[1..], id);
    }
  }

  /** Deleting keeps any relation that holds between every two rows in order. */
  lemma {:induction false} DeletedOrder(rows: seq<Peer>, id: nat)
    requires forall i, j | 0 <= i < j < |rows| :: rows[i].id < rows[j].id && rows[i].ip != rows[j].ip
    ensures var left := DeleteId(rows, id);
            forall i, j | 0 <= i < j < |left| :: left[i].id < left[j].id && left[i].ip != left[j].ip
  {
    if rows != [] {
      var rest := DeleteId(rows[1..], id);
      DeletedOrder(rows[1..], id);
      DeletedRows(rows[1..], id);
      forall r | r in rest
        ensures rows[0].id < r.id && rows[0].ip != r.ip
      {
        assert r in rows[1..];
      }
    }
  }

  lemma DeleteKept(s: Sys, prefix: Prefix, id: nat)
    requires prefix.Valid() && Inv(s)
    ensures Inv(Step(s, prefix, Delete(id)))
  {
    DeletedRows(s.rows, id);
    DeletedOrder(s.rows, id);
  }

  /** The columns that are written one at a time are none the invariant speaks of. */
  lemma ColumnsKept(s: Sys, rows: seq<Peer>)
    requires Inv(s) && |rows| == |s.rows|
    requires forall k | 0 <= k < |rows| :: Identity(rows[k], s.rows[k]) && rows[k].lastAuth == s.rows[k].lastAuth
    ensures Inv(s.(rows := rows))
  {
    assert forall k | 0 <= k < |rows| :: s.rows[k] in s.rows;
  }

  lemma TickKept(s: Sys, now: Time)
    requires Inv(s) && s.clock <= now
    ensures Inv(s.(clock := now))
  {
  }

  lemma OpenKept(s: Sys, prefix: Prefix, machineId: string)
    requires prefix.Valid() && Inv(s)
    ensures Inv(Step(s, prefix, Open(machineId)))
  {
    FoundInTable(s.rows, machineId);
  }

  lemma UniqueRow(s: Sys, p: Peer)
    requires TableInv(s) && p in s.rows
    ensures forall r | r in s.rows && r.id == p.id :: r == p
  {
    forall r | r in s.rows && r.id == p.id
      ensures r == p
    {
      var i :| 0 <= i < |s.rows| && s.rows[i] == r;
      var j :| 0 <= j < |s.rows| && s.rows[j] == p;
      assert i == j;
    }
  }

  lemma BeginKept(s: Sys, prefix: Prefix, h: nat, req: Request, token: Option<string>)
    requires prefix.Valid() && Inv(s)
    ensures Inv(Step(s, prefix, BeginLogin(h, req, token)))
  {
    var t := Step(s, prefix, BeginLogin(h, req, token));
    FoundInTable(s.rows, req.machineId);
    forall g | g in t.flights
      ensures FlightInv(t, t.flights[g])
    {
      if g != h {
        assert FlightInv(s, s.flights[g]);
      } else if t.flights[g].Relogin? {
        UniqueRow(s, FindMachine(s.rows, req.machineId).value);
      }
    }
  }

  lemma MergeKeeps(s: Sys, row: Peer, u: Peer)
    requires Identity(row, u) && Authenticated(s, row) && Authenticated(s, u)
    ensures Identity(Merge(row, u), row) && Authenticated(s, Merge(row, u))
  {
  }

  lemma ReloginKept(s: Sys, p: Peer)
    requires Inv(s) && FlightInv(s, Relogin(p))
    ensures Inv(s.(rows := UpdateRows(s.rows, p)))
  {
    var rows := UpdateRows(s.rows, p);
    forall k | 0 <= k < |s.rows|
      ensures Identity(rows[k], s.rows[k]) && Authenticated(s, rows[k]) && s.rows[k] in s.rows
    {
      assert s.rows[k] in s.rows;
      if s.rows[k].id == p.id {
        MergeKeeps(s, s.rows[k], p);
      }
    }
  }

  lemma EnrollKept(s: Sys, p: Peer)
    requires Inv(s) && FlightInv(s, Enroll(p))
    ensures Inv(Insert(s, p))
  {
  }

  lemma EndKept(s: Sys, prefix: Prefix, h: nat)
    requires prefix.Valid() && Inv(s)
    ensures Inv(Step(s, prefix, EndLogin(h)))
  {
    if h in s.flights {
      var rest := s.(flights := s.flights - {h});
      assert FlightInv(s, s.flights[h]);
      assert Inv(rest);
      match s.flights[h]
      case Refuse(_) =>
      case Relogin(p) => ReloginKept(rest, p);
      case Enroll(p) => EnrollKept(rest, p);
    }
  }

  lemma StepKept(s: Sys, prefix: Prefix, e: Event)
    requires prefix.Valid() && Inv(s)
    ensures Inv(Step(s, prefix, e))
  {
    match e
    case BeginLogin(h, req, token) => BeginKept(s, prefix, h, req, token);
    case EndLogin(h) => EndKept(s, prefix, h);
    case Open(machineId) => OpenKept(s, prefix, machineId);
    case Delete(id) => DeleteKept(s, prefix, id);
    case Mark(id, connected) => ColumnsKept(s, SetConnected(s.rows, id, connected));
    case Move(id, endpoint) => ColumnsKept(s, SetEndpoint(s.rows, id, endpoint));
    case Tick(now) =>
      if now >= s.clock {
        TickKept(s, now);
      }
  }

  lemma {:induction false} RunKeepsInv(s: Sys, prefix: Prefix, events: seq<Event>)
    requires prefix.Valid() && Inv(s)
    ensures Inv(Run(s, prefix, events))
    decreases |events|
  {
    if events != [] {
      StepKept(s, prefix, events[0]);
      RunKeepsInv(Step(s, prefix, events[0]), prefix, events[1..]);
    }
  }

  // ---------------------------------------------------------------------------------------------------------
  // Authorisation, identity and addresses over runs
  // ---------------------------------------------------------------------------------------------------------

  /** In every run, each update stream that was opened belongs to a record whose owner had an access token validated
      less than 30 days before. */
  lemma StreamsWithinWindow(clock: Time, prefix: Prefix, events: seq<Event>, o: Opened)
    requires prefix.Valid() && o in Run(Empty(clock), prefix, events).streams
    ensures exists v | v in Run(Empty(clock), prefix, events).validated ::
              v.user == o.peer.user && v.time <= o.time < v.time + AUTH_DAYS * DAY
  {
    RunKeepsInv(Empty(clock), prefix, events);
    assert WithinWindow(Run(Empty(clock), prefix, events), o);
  }

  /** Every row of t with an id that s has given out already is a row of s, up to what may change. */
  predicate Descends(s: Sys, t: Sys) {
    && s.nextId <= t.nextId
    && forall q | q in t.rows && q.id < s.nextId :: exists r | r in s.rows :: Identity(r, q)
  }

  predicate NewRow(s: Sys, e: Event, q: Peer) {
    e.EndLogin? && e.h in s.flights && s.flights[e.h].Enroll? && q == s.flights[e.h].peer.(id := s.nextId)
  }

  lemma ReloginDescends(s: Sys, p: Peer)
    requires Inv(s) && FlightInv(s, Relogin(p))
    ensures forall q | q in UpdateRows(s.rows, p) :: exists r | r in s.rows :: Identity(r, q)
  {
    var rows := UpdateRows(s.rows, p);
    forall q | q in rows
      ensures exists r | r in s.rows :: Identity(r, q)
    {
      var k :| 0 <= k < |rows| && rows[k] == q;
      assert s.rows[k] in s.rows;
      if s.rows[k].id == p.id {
        MergeKeeps(s, s.rows[k], p);
      }
      assert Identity(s.rows[k], q);
    }
  }

  /** A row after a step was there before, up to what may change, or is the one just enrolled. */
  lemma RowsOfStep(s: Sys, prefix: Prefix, e: Event, q: Peer)
    requires prefix.Valid() && Inv(s) && q in Step(s, prefix, e).rows
    ensures NewRow(s, e, q) || exists r | r in s.rows :: Identity(r, q)
  {
    var t := Step(s, prefix, e);
    if q in s.rows {
      assert Identity(q, q);
    } else {
      match e
      case EndLogin(h) =>
        if s.flights[h].Relogin? {
          ReloginDescends(s, s.flights[h].peer);
        }
      case Delete(id) => DeletedRows(s.rows, id);
      case Mark(_, _) | Move(_, _) =>
        var k :| 0 <= k < |t.rows| && t.rows[k] == q;
        assert s.rows[k] in s.rows && Identity(s.rows[k], q);
    }
  }

  lemma StepDescends(s: Sys, prefix: Prefix, e: Event)
    requires prefix.Valid() && Inv(s)
    ensures Descends(s, Step(s, prefix, e))
  {
    forall q | q in Step(s, prefix, e).rows && q.id < s.nextId
      ensures exists r | r in s.rows :: Identity(r, q)
    {
      RowsOfStep(s, prefix, e, q);
    }
  }

  lemma DescendsTrans(s: Sys, t: Sys, u: Sys)
    requires Descends(s, t) && Descends(t, u)
    ensures Descends(s, u)
  {
    forall q | q in u.rows && q.id < s.nextId
      ensures exists r | r in s.rows :: Identity(r, q)
    {
      var m :| m in t.rows && Identity(m, q);
      var r :| r in s.rows && Identity(r, m);
      assert Identity(r, q);
    }
  }

  lemma {:induction false} RunDescends(s: Sys, prefix: Prefix, events: seq<Event>)
    requires prefix.Valid() && Inv(s)
    ensures Descends(s, Run(s, prefix, events))
    decreases |events|
  {
    if events == [] {
      assert forall q | q in s.rows :: Identity(q, q);
    } else {
      var t := Step(s, prefix, events[0]);
      StepKept(s, prefix, events[0]);
      StepDescends(s, prefix, events[0]);
      RunDescends(t, prefix, events[1..]);
      DescendsTrans(s, t, Run(t, prefix, events[1..]));
    }
  }

  /** A record keeps its machine, its address, its network and its owner for as long as it exists, and no later record
      takes its id, whatever logins, deletions and stale writes happen in between. */
  lemma IdentityNeverChanges(clock: Time, prefix: Prefix, before: seq<Event>, after: seq<Event>, r: Peer, q: Peer)
    requires prefix.Valid() && r.id == q.id
    requires r in Run(Empty(clock), prefix, before).rows
    requires q in Run(Run(Empty(clock), prefix, before), prefix, after).rows
    ensures Identity(r, q)
  {
    var s := Run(Empty(clock), prefix, before);
    RunKeepsInv(Empty(clock), prefix, before);
    RunDescends(s, prefix, after);
    var m :| m in s.rows && Identity(m, q);
    UniqueRow(s, r);
  }

  /** A network whose hosts all fit: masked, not tiny, and never as many peers as it has addresses for. */
  predicate HasRoom(s: Sys, prefix: Prefix)
    requires prefix.Valid()
  {
    prefix.Masked() && prefix.bits <= 30 && s.peak < prefix.Size() - 2
  }

  predicate BelowMark(s: Sys, prefix: Prefix, a: Addr)
    requires prefix.Valid()
  {
    a.V4? && prefix.First() < a.n < prefix.Last() && a.n <= prefix.First() + 1 + s.peak
  }

  predicate RowsHanded(s: Sys) {
    forall r | r in s.rows && r.ip.Some? :: r.ip.value in s.handed
  }

  predicate FlightsHanded(s: Sys) {
    forall h | h in s.flights && s.flights[h].Enroll? && s.flights[h].peer.ip.Some? ::
      s.flights[h].peer.ip.value in s.handed
  }

  predicate MarkInv(s: Sys, prefix: Prefix)
    requires prefix.Valid()
  {
    HasRoom(s, prefix) ==> forall a | a in s.handed :: BelowMark(s, prefix, a)
  }

  predicate HandedInv(s: Sys, prefix: Prefix)
    requires prefix.Valid()
  {
    RowsHanded(s) && FlightsHanded(s) && MarkInv(s, prefix)
  }

  lemma {:induction false} ParsedCount(column: seq<Addr>, s: set<nat>)
    requires forall a | a in s :: a in Parsed(column)
    ensures |s| <= |column|
    decreases |column|
  {
    if column == [] {
      assert s == {};
    } else {
      var k := |column| - 1;
      var last := if column[k].V4? then {column[k].n} else {};
      ParsedCount(column[..k], s - last);
      assert |s| <= |s - last| + 1 by {
        if column[k].V4? && column[k].n in s {
          assert s == (s - last) + last;
        } else {
          assert s - last == s;
        }
      }
    }
  }

  /** The allocator's answer is below the mark. */
  lemma AllocationBelowMark(s: Sys, prefix: Prefix)
    requires prefix.Valid() && TableInv(s) && HasRoom(s, prefix)
    ensures BelowMark(s, prefix, Allocated(IpColumn(s.rows), prefix))
  {
    var column := IpColumn(s.rows);
    ParsedCount(column, StoredIn(column, prefix));
    SearchFinds(column, prefix, prefix.addr);
    RoomMeansInside(column, prefix, Allocated(column, prefix));
  }

  lemma RowsHandedKept(s: Sys, prefix: Prefix, e: Event)
    requires prefix.Valid() && Inv(s) && RowsHanded(s) && FlightsHanded(s)
    ensures RowsHanded(Step(s, prefix, e))
  {
    var t := Step(s, prefix, e);
    forall q | q in t.rows && q.ip.Some?
      ensures q.ip.value in t.handed
    {
      RowsOfStep(s, prefix, e, q);
      assert q.ip.value in s.handed;
    }
  }

  lemma FlightsHandedKept(s: Sys, prefix: Prefix, e: Event)
    requires prefix.Valid() && FlightsHanded(s)
    ensures FlightsHanded(Step(s, prefix, e))
  {
  }

  lemma MarkKept(s: Sys, prefix: Prefix, e: Event)
    requires prefix.Valid() && TableInv(s) && MarkInv(s, prefix)
    ensures MarkInv(Step(s, prefix, e), prefix)
  {
    if e.BeginLogin? && HasRoom(s, prefix) {
      AllocationBelowMark(s, prefix);
    }
  }

  lemma HandedKept(s: Sys, prefix: Prefix, e: Event)
    requires prefix.Valid() && Inv(s) && HandedInv(s, prefix)
    ensures HandedInv(Step(s, prefix, e), prefix)
  {
    RowsHandedKept(s, prefix, e);
    FlightsHandedKept(s, prefix, e);
    MarkKept(s, prefix, e);
  }

  lemma {:induction false} RunKeepsHanded(s: Sys, prefix: Prefix, events: seq<Event>)
    requires prefix.Valid() && Inv(s) && HandedInv(s, prefix)
    ensures HandedInv(Run(s, prefix, events), prefix)
    decreases |events|
  {
    if events != [] {
      StepKept(s, prefix, events[0]);
      HandedKept(s, prefix, events[0]);
      RunKeepsHanded(Step(s, prefix, events[0]), prefix, events[1..]);
    }
  }

  /** In every run, with allocations and inserts interleaving in any way, stored addresses are pairwise distinct and
      were handed out by the allocator; and as long as the network had room for all peers there ever were, every
      address handed out lies inside it, at most as far from its start as the most peers ever stored at a time. */
  lemma HighWaterMark(clock: Time, prefix: Prefix, events: seq<Event>)
    requires prefix.Valid()
    ensures var s := Run(Empty(clock), prefix, events);
            && (forall i, j | 0 <= i < j < |s.rows| :: s.rows[i].ip != s.rows[j].ip)
            && (forall r | r in s.rows :: r.ip.Some? && r.ip.value in s.handed)
            && (HasRoom(s, prefix) ==> forall a | a in s.handed :: BelowMark(s, prefix, a))
  {
    RunKeepsInv(Empty(clock), prefix, events);
    RunKeepsHanded(Empty(clock), prefix, events);
  }

  // ---------------------------------------------------------------------------------------------------------
  // What a forced logout stores
  // ---------------------------------------------------------------------------------------------------------

  /** The struct a forced logout updates from: only the id is set. */
  function Blank(id: nat): Peer {
    Peer(id, "", "", None, None, "", "", false, false, "", false, 0, 0)
  }

  /** Clearing flags through an update from a struct clears nothing: the table is unchanged. */
  lemma LogoutIsNotStored(rows: seq<Peer>, id: nat)
    ensures UpdateRows(rows, Blank(id)) == rows
  {
  }
}
