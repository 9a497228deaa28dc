/** What lookups, logins and deletions do to the peer table, told by its rows.  Nothing here speaks of how the handlers
    are written. */
module RegistryEffects {
  import opened Options
  import opened Netip
  import opened Ipam
  import opened Registry
  import opened RegistryRuns

  const WINDOW: Time := 30 * 24 * 3600 * 1_000_000_000

  /** Row k is the first one of this machine. */
  predicate FirstRow(rows: seq<Peer>, machineId: string, k: nat) {
    k < |rows| && rows[k].machineId == machineId && forall j | 0 <= j < k :: rows[j].machineId != machineId
  }

  predicate Known(rows: seq<Peer>, machineId: string) {
    exists r | r in rows :: r.machineId == machineId
  }

  /** A machine is found exactly when it has a row, and then in its first one. */
  lemma {:induction false} FoundExactly(rows: seq<Peer>, machineId: string)
    ensures FindMachine(rows, machineId).Some? <==> Known(rows, machineId)
    ensures FindMachine(rows, machineId).Some? ==>
              exists k | 0 <= k < |rows| ::
                FirstRow(rows, machineId, k) && FindMachine(rows, machineId).value == rows[k]
  {
    if rows != [] {
      if rows[0].machineId == machineId {
        assert FirstRow(rows, machineId, 0);
      } else {
        FoundExactly(rows[1..], machineId);
        if FindMachine(rows, machineId).Some? {
          var k :| 0 <= k < |rows[1..]| && FirstRow(rows[1..], machineId, k)
                   && FindMachine(rows[1..], machineId).value == rows[1..][k];
          assert forall j | 0 < j < |rows| :: rows[j] == rows[1..][j - 1];
          assert FirstRow(rows, machineId, k + 1);
        }
        assert Known(rows[1..], machineId) <==> Known(rows, machineId) by {
          if r :| r in rows && r.machineId == machineId {
            assert r in rows[1..];
          }
        }
      }
    }
  }

  lemma {:induction false} FoundIdExactly(rows: seq<Peer>, id: nat)
    ensures FindId(rows, id).Some? <==> exists r | r in rows :: r.id == id
    ensures FindId(rows, id).Some? ==> FindId(rows, id).value in rows && FindId(rows, id).value.id == id
  {
    if rows != [] && rows[0].id != id {
      FoundIdExactly(rows[1..], id);
      if r :| r in rows && r.id == id {
        assert r in rows[1..];
      }
    }
  }

  // ---------------------------------------------------------------------------------------------------------
  // Deletion
  // ---------------------------------------------------------------------------------------------------------

  /** The rows with other ids stay, and no others. */
  lemma {:induction false} DeletedExactly(rows: seq<Peer>, id: nat)
    ensures forall r :: r in DeleteId(rows, id) <==> r in rows && r.id != id
  {
    if rows != [] {
      DeletedExactly(rows[1..], id);
      assert rows == [rows[0]] + rows[1..];
    }
  }

  lemma {:induction false} NothingDeleted(rows: seq<Peer>, id: nat)
    requires forall r | r in rows :: r.id != id
    ensures DeleteId(rows, id) == rows
  {
    if rows != [] {
      assert rows[0] in rows && forall r | r in rows[1..] :: r in rows;
      NothingDeleted(rows[1..], id);
    }
  }

  predicate UniqueIds(rows: seq<Peer>) {
    forall i, j | 0 <= i < j < |rows| :: rows[i].id != rows[j].id
  }

  /** Where ids are unique, a deletion cuts out one row and leaves the others where they are. */
  lemma {:induction false} CutOut(rows: seq<Peer>, k: nat)
    requires k < |rows| && UniqueIds(rows)
    ensures DeleteId(rows, rows[k].id) == rows[..k] + rows[k + 1..]
  {
    if k == 0 {
      NothingDeleted(rows[1..], rows[0].id);
    } else {
      CutOut(rows[1..], k - 1);
      assert rows[1..][..k - 1] == rows[..k][1..] && rows[1..][k..] == rows[k + 1..];
      assert rows[..k] == [rows[0]] + rows[..k][1..];
    }
  }

  /** In every run, deleting a stored id cuts out exactly its row, and deleting another one does nothing. */
  lemma DeletionEffect(clock: Time, prefix: Prefix, events: seq<Event>, id: nat)
    requires prefix.Valid()
    ensures var s := Run(Empty(clock), prefix, events); var t := Step(s, prefix, Delete(id));
            && (forall k | 0 <= k < |s.rows| && s.rows[k].id == id :: t.rows == s.rows[..k] + s.rows[k + 1..])
            && ((forall r | r in s.rows :: r.id != id) ==> t.rows == s.rows)
            && t == s.(rows := t.rows)
  {
    RunKeepsInv(Empty(clock), prefix, events);
    var s := Run(Empty(clock), prefix, events);
    forall k | 0 <= k < |s.rows| && s.rows[k].id == id ensures DeleteId(s.rows, id) == s.rows[..k] + s.rows[k + 1..] {
      CutOut(s.rows, k);
    }
    if forall r | r in s.rows :: r.id != id {
      NothingDeleted(s.rows, id);
    }
  }

  lemma StepKeepsRow(s: Sys, prefix: Prefix, e: Event, r: Peer)
    requires prefix.Valid() && Inv(s) && r in s.rows && e != Delete(r.id)
    ensures exists q | q in Step(s, prefix, e).rows :: Identity(r, q)
  {
    var t := Step(s, prefix, e);
    var k :| 0 <= k < |s.rows| && s.rows[k] == r;
    match e
    case EndLogin(h) =>
      if h in s.flights && s.flights[h].Relogin? {
        assert FlightInv(s, s.flights[h]);
        assert t.rows[k] in t.rows && Identity(r, t.rows[k]);
      } else {
        assert r in t.rows && Identity(r, r);
      }
    case Delete(id) =>
      DeletedExactly(s.rows, id);
      assert r in t.rows && Identity(r, r);
    case Mark(_, _) | Move(_, _) =>
      assert t.rows[k] in t.rows && Identity(r, t.rows[k]);
    case _ =>
      assert r in t.rows && Identity(r, r);
  }

  lemma SameIdentity(r: Peer, q: Peer, rows: seq<Peer>)
    requires Identity(r, q) && exists u | u in rows :: Identity(q, u)
    ensures exists u | u in rows :: Identity(r, u)
  {
    var u :| u in rows && Identity(q, u);
    assert Identity(r, u);
  }

  lemma {:induction false} RunKeepsRow(s: Sys, prefix: Prefix, events: seq<Event>, r: Peer)
    requires prefix.Valid() && Inv(s) && r in s.rows && Delete(r.id) !in events
    ensures exists q | q in Run(s, prefix, events).rows :: Identity(r, q)
    decreases |events|
  {
    if events == [] {
      assert Identity(r, r);
    } else {
      assert events[0] in events && forall e | e in events[1..] :: e in events;
      StepKeepsRow(s, prefix, events[0], r);
      StepKept(s, prefix, events[0]);
      var t := Step(s, prefix, events[0]);
      var q :| q in t.rows && Identity(r, q);
      RunKeepsRow(t, prefix, events[1..], q);
      SameIdentity(r, q, Run(t, prefix, events[1..]).rows);
    }
  }

  /** In every run, a record that is not deleted stays in the table, with its machine, address, network and owner. */
  lemma StaysUnlessDeleted(clock: Time, prefix: Prefix, before: seq<Event>, after: seq<Event>, r: Peer)
    requires prefix.Valid() && r in Run(Empty(clock), prefix, before).rows && Delete(r.id) !in after
    ensures exists q | q in Run(Run(Empty(clock), prefix, before), prefix, after).rows :: Identity(r, q)
  {
    RunKeepsInv(Empty(clock), prefix, before);
    RunKeepsRow(Run(Empty(clock), prefix, before), prefix, after, r);
  }

  /** Marks and endpoints are written to the rows with this id and to no other column. */
  lemma ColumnEffects(s: Sys, prefix: Prefix, id: nat, connected: bool, endpoint: string)
    requires prefix.Valid()
    ensures var t := Step(s, prefix, Mark(id, connected));
            && t == s.(rows := t.rows) && |t.rows| == |s.rows|
            && forall k | 0 <= k < |s.rows| ::
                 t.rows[k] == if s.rows[k].id == id then s.rows[k].(connected := connected) else s.rows[k]
    ensures var t := Step(s, prefix, Move(id, endpoint));
            && t == s.(rows := t.rows) && |t.rows| == |s.rows|
            && forall k | 0 <= k < |s.rows| ::
                 t.rows[k] == if s.rows[k].id == id then s.rows[k].(endpoint := endpoint) else s.rows[k]
  {
  }

  // ---------------------------------------------------------------------------------------------------------
  // Streams
  // ---------------------------------------------------------------------------------------------------------

  /** An update stream is opened exactly for a machine whose first row is enabled, logged in and authorised less than 30
      days before. */
  lemma OpenedExactly(rows: seq<Peer>, machineId: string, now: Time)
    ensures OpenStream(rows, machineId, now).Some? <==>
            exists k | 0 <= k < |rows| ::
              && FirstRow(rows, machineId, k)
              && !rows[k].disabled && rows[k].loggedIn && now < rows[k].lastAuth + WINDOW
    ensures OpenStream(rows, machineId, now).Some? ==>
              exists k | 0 <= k < |rows| ::
                FirstRow(rows, machineId, k) && OpenStream(rows, machineId, now).value == rows[k]
  {
    FoundExactly(rows, machineId);
    if k :| 0 <= k < |rows| && FirstRow(rows, machineId, k) {
      assert rows[k] in rows;
    }
  }

  // ---------------------------------------------------------------------------------------------------------
  // Logins
  // ---------------------------------------------------------------------------------------------------------

  /** The conditions of a known machine's login: enabled, and authorised either lately or by a token of its owner. */
  predicate MayLogIn(r: Peer, token: Option<string>, now: Time) {
    !r.disabled && (now < r.lastAuth + WINDOW || token == Some(r.user))
  }

  /** A login with a valid machine id updates the first row of a known machine, if it may log in; it enrolls a machine
      exactly when it has no row and a token; otherwise it is refused. */
  lemma DecidedExactly(rows: seq<Peer>, req: Request, token: Option<string>, prefix: Prefix, now: Time)
    requires prefix.Valid()
    ensures var d := Login(rows, req, token, prefix, now);
            && (d.Enroll? <==> ValidMachineId(req.machineId) && !Known(rows, req.machineId) && token.Some?)
            && (d.Relogin? <==>
                  ValidMachineId(req.machineId)
                  && exists k | 0 <= k < |rows| :: FirstRow(rows, req.machineId, k) && MayLogIn(rows[k], token, now))
  {
    FoundExactly(rows, req.machineId);
    if k :| 0 <= k < |rows| && FirstRow(rows, req.machineId, k) {
      assert rows[k] in rows;
    }
  }

  function Given(text: string, stored: string): string {
    if text != "" then text else stored
  }

  /** What a login leaves in the row of its machine: the request's key, host name and endpoint, as far as they are not
      empty; the time; and the authorisation, if a token was needed.  The mark of an open stream is not cleared. */
  predicate LoggedInRow(r: Peer, q: Peer, req: Request, now: Time) {
    && Identity(r, q) && q.loggedIn && !q.disabled && q.connected == r.connected
    && q.publicKey == Given(req.publicKey, r.publicKey) && q.hostname == Given(req.hostname, r.hostname)
    && q.endpoint == Given(req.endpoint, r.endpoint)
    && (now > 0 ==> q.lastLogin == now)
    && q.lastAuth == if now < r.lastAuth + WINDOW then r.lastAuth else now
  }

  /** Where ids are unique, the login of a known machine changes its first row and no other. */
  lemma ReloginEffect(rows: seq<Peer>, req: Request, token: Option<string>, prefix: Prefix, now: Time, k: nat)
    requires prefix.Valid() && FirstRow(rows, req.machineId, k)
    requires UniqueIds(rows)
    requires Login(rows, req, token, prefix, now).Relogin?
    ensures var after := UpdateRows(rows, Login(rows, req, token, prefix, now).peer);
            && |after| == |rows| && (forall j | 0 <= j < |rows| && j != k :: after[j] == rows[j])
            && LoggedInRow(rows[k], after[k], req, now)
  {
    FoundExactly(rows, req.machineId);
    var m :| 0 <= m < |rows| && FirstRow(rows, req.machineId, m) && FindMachine(rows, req.machineId).value == rows[m];
    assert m == k;
  }

  /** What the reply to a login says is in the row of the machine. */
  lemma ReplyIsStored(rows: seq<Peer>, req: Request, token: Option<string>, prefix: Prefix, now: Time)
    requires prefix.Valid() && Login(rows, req, token, prefix, now).Relogin?
    ensures var p := Login(rows, req, token, prefix, now).peer;
            exists r | r in UpdateRows(rows, p) ::
              r.machineId == req.machineId && r.id == p.id && r.ip == p.ip && r.prefix == p.prefix
  {
    FoundExactly(rows, req.machineId);
    var k :| 0 <= k < |rows| && FirstRow(rows, req.machineId, k) && FindMachine(rows, req.machineId).value == rows[k];
    var after := UpdateRows(rows, Login(rows, req, token, prefix, now).peer);
    assert after[k] in after;
  }

  /** Where ids are unique, the login of a known machine leaves every record its identity. */
  lemma LoginKeepsIdentities(rows: seq<Peer>, req: Request, token: Option<string>, prefix: Prefix, now: Time)
    requires prefix.Valid()
    ensures var d := Login(rows, req, token, prefix, now);
            UniqueIds(rows) && Known(rows, req.machineId) ==>
              && !d.Enroll?
              && (d.Relogin? ==>
                    forall k | 0 <= k < |rows| :: Identity(rows[k], UpdateRows(rows, d.peer)[k]))
  {
    DecidedExactly(rows, req, token, prefix, now);
    if UniqueIds(rows) && Login(rows, req, token, prefix, now).Relogin? {
      var k :| 0 <= k < |rows| && FirstRow(rows, req.machineId, k) && MayLogIn(rows[k], token, now);
      ReloginEffect(rows, req, token, prefix, now, k);
    }
  }

  /** A machine without a row that has a token gets one behind the others, unless its address is taken by then. */
  lemma EnrollmentEffect(rows: seq<Peer>, req: Request, token: Option<string>, prefix: Prefix, now: Time)
    requires prefix.Valid() && Login(rows, req, token, prefix, now).Enroll?
    ensures var p := Login(rows, req, token, prefix, now).peer;
            && p.machineId == req.machineId && p.publicKey == req.publicKey && p.hostname == req.hostname
            && p.endpoint == req.endpoint && token == Some(p.user) && p.prefix == Some(prefix)
            && p.ip.Some? && FirstFit(IpColumn(rows), prefix, p.ip.value)
            && p.loggedIn && !p.connected && !p.disabled && p.lastLogin == now && p.lastAuth == now
  {
    SearchFinds(IpColumn(rows), prefix, prefix.addr);
  }

  lemma KeptByWrite(s: Sys, prefix: Prefix, h: nat)
    requires prefix.Valid() && Inv(s) && h in s.flights && !s.flights[h].Enroll?
    ensures var t := Step(s, prefix, EndLogin(h));
            |t.rows| == |s.rows| && forall k | 0 <= k < |s.rows| :: Identity(s.rows[k], t.rows[k])
  {
    assert FlightInv(s, s.flights[h]);
    assert forall k | 0 <= k < |s.rows| :: s.rows[k] in s.rows;
  }

  /** In every run, a machine that has a row when its login is read is not enrolled by it: the write that ends this
      login adds no row and changes no record's machine, address or owner. */
  lemma KnownMachinesAreNotEnrolled(clock: Time, prefix: Prefix, events: seq<Event>, h: nat, req: Request,
                                    token: Option<string>)
    requires prefix.Valid() && Known(Run(Empty(clock), prefix, events).rows, req.machineId)
    ensures var s := Run(Empty(clock), prefix, events);
            var begun := Step(s, prefix, BeginLogin(h, req, token));
            var done := Step(begun, prefix, EndLogin(h));
            && h in begun.flights && !begun.flights[h].Enroll? && begun.rows == s.rows && begun.handed == s.handed
            && |done.rows| == |s.rows| && forall k | 0 <= k < |s.rows| :: Identity(s.rows[k], done.rows[k])
  {
    RunKeepsInv(Empty(clock), prefix, events);
    var s := Run(Empty(clock), prefix, events);
    StepKept(s, prefix, BeginLogin(h, req, token));
    DecidedExactly(s.rows, req, token, prefix, s.clock);
    KeptByWrite(Step(s, prefix, BeginLogin(h, req, token)), prefix, h);
  }

  /** In every run, the login of a known machine that may log in, when nothing comes between its read and its write,
      leaves the request in the machine's row, and every other row as it was. */
  lemma LoginIsWritten(clock: Time, prefix: Prefix, events: seq<Event>, h: nat, req: Request, token: Option<string>,
                       k: nat)
    requires prefix.Valid() && ValidMachineId(req.machineId)
    requires var s := Run(Empty(clock), prefix, events);
             FirstRow(s.rows, req.machineId, k) && MayLogIn(s.rows[k], token, s.clock)
    ensures var s := Run(Empty(clock), prefix, events);
            var done := Step(Step(s, prefix, BeginLogin(h, req, token)), prefix, EndLogin(h));
            && |done.rows| == |s.rows| && LoggedInRow(s.rows[k], done.rows[k], req, s.clock)
            && forall j | 0 <= j < |s.rows| && j != k :: done.rows[j] == s.rows[j]
  {
    RunKeepsInv(Empty(clock), prefix, events);
    var s := Run(Empty(clock), prefix, events);
    DecidedExactly(s.rows, req, token, prefix, s.clock);
    ReloginEffect(s.rows, req, token, prefix, s.clock, k);
  }

  /** Later, the write of a login changes the rows with the id it has read, and no others; every machine keeps its
      identity. */
  lemma LateWrite(clock: Time, prefix: Prefix, events: seq<Event>, h: nat)
    requires prefix.Valid() && h in Run(Empty(clock), prefix, events).flights
    requires Run(Empty(clock), prefix, events).flights[h].Relogin?
    ensures var s := Run(Empty(clock), prefix, events); var t := Step(s, prefix, EndLogin(h));
            var u := s.flights[h].peer;
            && |t.rows| == |s.rows| && h !in t.flights
            && forall j | 0 <= j < |s.rows| ::
                 var r, q := s.rows[j], t.rows[j];
                 if r.id != u.id then q == r
                 else
                   && Identity(r, q) && q.publicKey == Given(u.publicKey, r.publicKey)
                   && q.hostname == Given(u.hostname, r.hostname) && q.endpoint == Given(u.endpoint, r.endpoint)
  {
    RunKeepsInv(Empty(clock), prefix, events);
    var s := Run(Empty(clock), prefix, events);
    assert FlightInv(s, s.flights[h]);
    assert forall j | 0 <= j < |s.rows| :: s.rows[j] in s.rows;
  }

  /** Reading a login changes nothing in the table; it hands out an address exactly to a machine that has no row, the
      first one that fits; and nothing counts as validated but the request's token. */
  lemma ReadEffect(s: Sys, prefix: Prefix, h: nat, req: Request, token: Option<string>)
    requires prefix.Valid()
    ensures var t := Step(s, prefix, BeginLogin(h, req, token));
            && t.rows == s.rows && t.streams == s.streams && h in t.flights
            && (if ValidMachineId(req.machineId) && !Known(s.rows, req.machineId) && token.Some? then
                  exists ip | FirstFit(IpColumn(s.rows), prefix, ip) ::
                    t.handed == s.handed + [ip] && t.flights[h].Enroll? && t.flights[h].peer.ip == Some(ip)
                else t.handed == s.handed && !t.flights[h].Enroll?)
            && forall v | v in t.validated :: v in s.validated || (v.time == s.clock && token == Some(v.user))
  {
    DecidedExactly(s.rows, req, token, prefix, s.clock);
    SearchFinds(IpColumn(s.rows), prefix, prefix.addr);
  }

  /** A stream is opened exactly for such a machine, and nothing else changes. */
  lemma StreamEffect(s: Sys, prefix: Prefix, machineId: string)
    requires prefix.Valid()
    ensures var t := Step(s, prefix, Open(machineId));
            && t == s.(streams := t.streams)
            && (!Known(s.rows, machineId) ==> t.streams == s.streams)
            && forall k: nat | FirstRow(s.rows, machineId, k) ::
                 var r := s.rows[k];
                 if !r.disabled && r.loggedIn && s.clock < r.lastAuth + WINDOW
                 then t.streams == s.streams + [Opened(r, s.clock)] else t.streams == s.streams
  {
    FoundExactly(s.rows, machineId);
    forall k: nat | FirstRow(s.rows, machineId, k)
      ensures FindMachine(s.rows, machineId) == Some(s.rows[k])
    {
      assert s.rows[k] in s.rows;
      var m :| 0 <= m < |s.rows| && FirstRow(s.rows, machineId, m)
               && FindMachine(s.rows, machineId).value == s.rows[m];
      assert m == k;
    }
  }
}
