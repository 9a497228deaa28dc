/** The peer table of the controller and the handlers that use it: login, registration, deletion and the opening of
    update streams.  Reading a record and writing it back are separate steps, so handlers interleave. */
module Registry {
  import opened Options
  import opened Netip
  import opened Ipam

  /** In nanoseconds; zero is the zero time. */
  type Time = nat

  const DAY: Time := 24 * 3600 * 1_000_000_000

  const AUTH_DAYS: nat := 30

  const MACHINE_ID_LEN: nat := 64

  /** A row of the table.  None stands for the empty text of a column that was never set. */
  datatype Peer = Peer(
    id: nat,
    machineId: string,
    publicKey: string,
    ip: Option<Addr>,
    prefix: Option<Prefix>,
    endpoint: string,
    hostname: string,
    loggedIn: bool,
    connected: bool,
    user: string,
    disabled: bool,
    lastLogin: Time,
    lastAuth: Time)

  datatype Request = Request(machineId: string, publicKey: string, hostname: string, endpoint: string)

  predicate ValidMachineId(s: string) {
    && |s| >= MACHINE_ID_LEN
    && forall c | c in s :: 'a' <= c <= 'z' || 'A' <= c <= 'Z' || '0' <= c <= '9' || c == '_'
  }

  predicate AuthExpired(p: Peer, now: Time) {
    now - p.lastAuth >= AUTH_DAYS * DAY
  }

  // ---------------------------------------------------------------------------------------------------------
  // The table, ordered by primary key
  // ---------------------------------------------------------------------------------------------------------

  function FindMachine(rows: seq<Peer>, machineId: string): Option<Peer> {
    if rows == [] then None
    else if rows[0].machineId == machineId then Some(rows[0])
    else FindMachine(rows[1..], machineId)
  }

  function FindId(rows: seq<Peer>, id: nat): Option<Peer> {
    if rows == [] then None
    else if rows[0].id == id then Some(rows[0])
    else FindId(rows[1..], id)
  }

  /** An update from a struct writes the columns whose field is not the zero value. */
  function Merge(row: Peer, u: Peer): Peer {
    Peer(row.id,
         if u.machineId != "" then u.machineId else row.machineId,
         if u.publicKey != "" then u.publicKey else row.publicKey,
         if u.ip.Some? then u.ip else row.ip,
         if u.prefix.Some? then u.prefix else row.prefix,
         if u.endpoint != "" then u.endpoint else row.endpoint,
         if u.hostname != "" then u.hostname else row.hostname,
         u.loggedIn || row.loggedIn,
         u.connected || row.connected,
         if u.user != "" then u.user else row.user,
         u.disabled || row.disabled,
         if u.lastLogin != 0 then u.lastLogin else row.lastLogin,
         if u.lastAuth != 0 then u.lastAuth else row.lastAuth)
  }

  function UpdateRows(rows: seq<Peer>, u: Peer): (r: seq<Peer>)
    ensures |r| == |rows|
  {
    seq(|rows|, k requires 0 <= k < |rows| => if rows[k].id == u.id then Merge(rows[k], u) else rows[k])
  }

  function SetConnected(rows: seq<Peer>, id: nat, connected: bool): (r: seq<Peer>)
    ensures |r| == |rows|
  {
    seq(|rows|, k requires 0 <= k < |rows| => if rows[k].id == id then rows[k].(connected := connected) else rows[k])
  }

  function SetEndpoint(rows: seq<Peer>, id: nat, endpoint: string): (r: seq<Peer>)
    ensures |r| == |rows|
  {
    seq(|rows|, k requires 0 <= k < |rows| => if rows[k].id == id then rows[k].(endpoint := endpoint) else rows[k])
  }

  function DeleteId(rows: seq<Peer>, id: nat): seq<Peer> {
    if rows == [] then []
    else (if rows[0].id == id then [] else [rows[0]]) + DeleteId(rows[1..], id)
  }

  /** The ip column as the allocator reads it; an empty text does not parse. */
  function IpColumn(rows: seq<Peer>): (r: seq<Addr>)
    ensures |r| == |rows|
  {
    seq(|rows|, k requires 0 <= k < |rows| => if rows[k].ip.Some? then rows[k].ip.value else Invalid)
  }

  // ---------------------------------------------------------------------------------------------------------
  // Handlers
  // ---------------------------------------------------------------------------------------------------------

  datatype Error = InvalidMachineId | Disabled | InvalidToken | WrongUser | NotRegistered | Expired | NotLoggedIn

  /** What a login request has decided before it writes: an existing record to update, or a new one to insert. */
  datatype Decision = Refuse(error: Error) | Relogin(peer: Peer) | Enroll(peer: Peer)

  function LoggedIn(p: Peer, req: Request, now: Time): Peer {
    p.(lastLogin := now, publicKey := req.publicKey, hostname := req.hostname, endpoint := req.endpoint,
       connected := false, loggedIn := true)
  }

  function Enrolled(req: Request, user: string, ip: Addr, prefix: Prefix, now: Time): Peer {
    Peer(0, req.machineId, req.publicKey, Some(ip), Some(prefix), req.endpoint, req.hostname, true, false, user, false,
         now, now)
  }

  /** `token` is the user of a valid access token, None when it does not validate. */
  function Login(rows: seq<Peer>, req: Request, token: Option<string>, prefix: Prefix, now: Time): Decision
    requires prefix.Valid()
  {
    if !ValidMachineId(req.machineId) then Refuse(InvalidMachineId)
    else
      match FindMachine(rows, req.machineId)
      case None =>
        if token.None? then Refuse(InvalidToken)
        else Enroll(Enrolled(req, token.value, Allocated(IpColumn(rows), prefix), prefix, now))
      case Some(p) =>
        if p.disabled then Refuse(Disabled)
        else if !AuthExpired(p, now) then Relogin(LoggedIn(p, req, now))
        else if token.None? then Refuse(InvalidToken)
        else if token.value != p.user then Refuse(WrongUser)
        else Relogin(LoggedIn(p.(lastAuth := now), req, now))
  }

  /** Whether the token was looked at. */
  predicate ChecksToken(rows: seq<Peer>, req: Request, now: Time) {
    ValidMachineId(req.machineId)
    && match FindMachine(rows, req.machineId)
       case None => true
       case Some(p) => !p.disabled && AuthExpired(p, now)
  }

  function OpenStream(rows: seq<Peer>, machineId: string, now: Time): Option<Peer> {
    match FindMachine(rows, machineId)
    case None => None
    case Some(p) => if AuthExpired(p, now) || p.disabled || !p.loggedIn then None else Some(p)
  }

  // ---------------------------------------------------------------------------------------------------------
  // Runs
  // ---------------------------------------------------------------------------------------------------------

  /** A token of `user` was validated at `time`. */
  datatype Validation = Validation(user: string, time: Time)

  datatype Opened = Opened(peer: Peer, time: Time)

  datatype Sys = Sys(
    rows: seq<Peer>,
    nextId: nat,
    clock: Time,
    flights: map<nat, Decision>,   // login requests between their read and their write
    validated: set<Validation>,
    handed: seq<Addr>,             // addresses handed out by the allocator
    peak: nat,                     // the most rows there ever were
    streams: seq<Opened>)

  datatype Event =
    | Tick(now: Time)
    | BeginLogin(h: nat, req: Request, token: Option<string>)
    | EndLogin(h: nat)
    | Open(machineId: string)
    | Mark(id: nat, connected: bool)
    | Move(id: nat, endpoint: string)
    | Delete(id: nat)

  function Max(a: nat, b: nat): nat {
    if a < b then b else a
  }

  /** The unique index on the ip column decides whether an insert succeeds. */
  function Insert(s: Sys, p: Peer): Sys {
    if exists r | r in s.rows :: r.ip == p.ip then s
    else s.(rows := s.rows + [p.(id := s.nextId)], nextId := s.nextId + 1, peak := Max(s.peak, |s.rows| + 1))
  }

  function Step(s: Sys, prefix: Prefix, e: Event): Sys
    requires prefix.Valid()
  {
    match e
    case Tick(now) => if now >= s.clock then s.(clock := now) else s
    case BeginLogin(h, req, token) =>
      var d := Login(s.rows, req, token, prefix, s.clock);
      s.(flights := s.flights[h := d],
         validated := s.validated
           + if token.Some? && ChecksToken(s.rows, req, s.clock) then {Validation(token.value, s.clock)} else {},
         handed := s.handed + if d.Enroll? then [d.peer.ip.value] else [])
    case EndLogin(h) =>
      if h !in s.flights then s
      else
        var rest := s.(flights := s.flights - {h});
        (match s.flights[h]
         case Refuse(_) => rest
         case Relogin(p) => rest.(rows := UpdateRows(s.rows, p))
         case Enroll(p) => Insert(rest, p))
    case Open(machineId) =>
      (match OpenStream(s.rows, machineId, s.clock)
       case None => s
       case Some(p) => s.(streams := s.streams + [Opened(p, s.clock)]))
    case Mark(id, connected) => s.(rows := SetConnected(s.rows, id, connected))
    case Move(id, endpoint) => s.(rows := SetEndpoint(s.rows, id, endpoint))
    case Delete(id) => s.(rows := DeleteId(s.rows, id))
  }

  function Run(s: Sys, prefix: Prefix, events: seq<Event>): Sys
    requires prefix.Valid()
    decreases |events|
  {
    if events == [] then s else Run(Step(s, prefix, events[0]), prefix, events[1..])
  }

  function Empty(clock: Time): Sys {
    Sys([], 1, clock, map[], {}, [], 0, [])
  }
}
