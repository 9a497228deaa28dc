/** The life of the outbound buffers: the tunnel's reader takes them from the pool and routes them to the peers'
    channels, a peer's timers and handshakes take them too, and its sending loop returns them.  Every event is one
    step of one goroutine, and any interleaving is a run. */
module OutboundPath {
  import opened Options
  import opened Bytes
  import opened Blocks
  import opened Header
  import opened Custody
  import opened Netip
  import PeerMachine
  import Network

  const OUTBOUND_SIZE := PeerMachine.OUTBOUND_SIZE

  type PeerId = Uint32

  /** What is in a buffer: the bytes to send, the packet from the tunnel and its size, and the other fields. */
  datatype Content = Content(out: Block, packet: Block, size: nat, header: Fields, peer: Option<PeerId>)

  /** The goroutines, at the points where they hold a buffer, and the channels. */
  datatype Place =
    | Reader
    | Router
    | Timer(id: PeerId)
    | Handshaker(id: PeerId)
    | Outbox(id: PeerId)
    | SendLoop(id: PeerId)

  /** What routing looks at: the node's address in its network, and the peers' addresses. */
  datatype Routes = Routes(ip: Prefix, peers: map<nat, PeerId>)

  /** The node's network, the peers it has been told of with their addresses, and the packets it has read. */
  datatype Past = Past(ip: Prefix, told: set<(nat, PeerId)>, read: set<seq<Byte>>)

  datatype Sys<!B> = Sys(store: Store<Place, B, Content>, node: Uint32, routes: Routes, running: set<PeerId>,
                         told: set<(nat, PeerId)>, read: set<seq<Byte>>)
  {
    function Known(): Past {
      Past(routes.ip, told, read)
    }

    function At(p: Place): seq<B> {
      store.ledger.At(p)
    }
  }

  datatype Event<!B> =
    | Get(place: Place, buffer: B)
    | Collect(buffer: B)
    | ReadFails
    | Read(packet: seq<Byte>)
    | Route(parsed: bool)
    | Keepalive(id: PeerId)
    | TakeOutbound(id: PeerId)
    | Send(id: PeerId)
    | WriteHandshake(id: PeerId)
    | FlushOutbound(id: PeerId)
    | Running(id: PeerId, on: bool)
    | AddPeer(address: nat, id: PeerId)

  // ---------------------------------------------------------------------------------------------------------
  // Steps
  // ---------------------------------------------------------------------------------------------------------

  function Made0(): Content {
    Content(Zeros(BUFFER_SIZE), Zeros(BUFFER_SIZE), 0, Fields(0, 0, 0, 0, 0), None)
  }

  /** PutOutboundBuffer. */
  function Cleared(): Content {
    Content(Zeros(BUFFER_SIZE), Zeros(BUFFER_SIZE), 0, Made(0, 0, 0), None)
  }

  function Loaded(c: Content, packet: seq<Byte>): Content {
    c.(packet := Overwritten(c.packet, packet), size := |Cut(packet)|)
  }

  /** The destination address field of the IPv4 header in the buffer (RFC 791, section 3.1). */
  function DestinationIn(c: Content): nat {
    Number(c.packet[16..20])
  }

  /** The peer that OnTunnelPacket picks. */
  function Target(r: Routes, c: Content): Option<PeerId> {
    var dst := DestinationIn(c);
    if r.ip.Reaches(dst) && dst in r.peers then Some(r.peers[dst]) else None
  }

  predicate Holds<B>(s: Sys<B>, p: Place) {
    s.At(p) != [] && s.store.Next(p) in s.store.contents
  }

  function First<B>(s: Sys<B>, p: Place): Content
    requires Holds(s, p)
  {
    s.store.contents[s.store.Next(p)]
  }

  function PutFirst<B>(s: Sys<B>, p: Place): Sys<B>
    requires Holds(s, p)
  {
    s.(store := s.store.Put(p, Cleared()))
  }

  function Pass<B>(s: Sys<B>, p: Place, q: Place, c: Content): Sys<B>
    requires Holds(s, p) && p != q
  {
    s.(store := s.store.Move(p, q, c))
  }

  /** Peer.OutboundPacket. */
  function Queued<B>(s: Sys<B>, id: PeerId): Sys<B>
    requires Holds(s, Router)
  {
    if id !in s.running then PutFirst(s, Router)
    else if |s.At(Outbox(id))| < OUTBOUND_SIZE then Pass(s, Router, Outbox(id), First(s, Router))
    else s.(store := s.store.Lose(Router, First(s, Router)))
  }

  /** Node.OnTunnelPacket. */
  function Routed<B>(s: Sys<B>, parsed: bool): Sys<B>
    requires Holds(s, Router)
  {
    var to := Target(s.routes, First(s, Router));
    if parsed && to.Some? then Queued(s, to.value) else PutFirst(s, Router)
  }

  /** The rest of Node.ReadTunPackets. */
  function PacketRead<B>(s: Sys<B>, packet: seq<Byte>): Sys<B>
    requires Holds(s, Reader)
  {
    Pass(s, Reader, Router, Loaded(First(s, Reader), packet)).(read := s.read + {Cut(packet)})
  }

  /** The rest of Peer.TXTimeout. */
  function KeepaliveQueued<B>(s: Sys<B>, id: PeerId): Sys<B>
    requires Holds(s, Timer(id))
  {
    Pass(s, Timer(id), Outbox(id), First(s, Timer(id)).(peer := Some(id)))
  }

  /** Node.AddPeer: the address leads to this peer from now on. */
  function Learned<B>(s: Sys<B>, address: nat, id: PeerId): Sys<B> {
    s.(routes := s.routes.(peers := s.routes.peers[address := id]), told := s.told + {(address, id)})
  }

  function Member(ids: set<PeerId>, id: PeerId, on: bool): set<PeerId> {
    if on then ids + {id} else ids - {id}
  }

  predicate Taker(p: Place) {
    p.Reader? || p.Timer? || p.Handshaker?
  }

  predicate Enabled<B>(s: Sys<B>, e: Event<B>) {
    match e
    case Get(p, b) => Taker(p) && s.At(p) == [] && (b in s.store.ledger.pool || b !in s.store.contents)
    case Collect(b) => b in s.store.ledger.pool
    case ReadFails => Holds(s, Reader)
    case Read(_) => Holds(s, Reader) && s.At(Router) == []
    case Route(_) => Holds(s, Router)
    case Keepalive(id) => Holds(s, Timer(id)) && |s.At(Outbox(id))| < OUTBOUND_SIZE
    case TakeOutbound(id) => s.At(SendLoop(id)) == [] && Holds(s, Outbox(id))
    case Send(id) => Holds(s, SendLoop(id))
    case WriteHandshake(id) => Holds(s, Handshaker(id))
    case FlushOutbound(id) => Holds(s, Outbox(id))
    case Running(_, _) => true
    case AddPeer(_, _) => true
  }

  function Apply<B>(s: Sys<B>, e: Event<B>): Sys<B>
    requires Enabled(s, e)
  {
    match e
    case Get(p, b) => s.(store := s.store.Get(p, b, Made0()))
    case Collect(b) => s.(store := s.store.Collect(b))
    case ReadFails => PutFirst(s, Reader)
    case Read(packet) => PacketRead(s, packet)
    case Route(parsed) => Routed(s, parsed)
    case Keepalive(id) => KeepaliveQueued(s, id)
    case TakeOutbound(id) => Pass(s, Outbox(id), SendLoop(id), First(s, Outbox(id)))
    case Send(id) => PutFirst(s, SendLoop(id))
    case WriteHandshake(id) => PutFirst(s, Handshaker(id))
    case FlushOutbound(id) => PutFirst(s, Outbox(id))
    case Running(id, on) => s.(running := Member(s.running, id, on))
    case AddPeer(address, id) => Learned(s, address, id)
  }

  /** The datagrams that are sent. */
  function DataDatagram(node: Uint32, nonce: Uint64, box: seq<Byte>): seq<Byte> {
    Layout(Made(DATA, node, nonce)) + box
  }

  function HandshakeDatagram(node: Uint32, counter: Uint64, body: seq<Byte>): seq<Byte> {
    Layout(Made(HANDSHAKE, node, counter)) + body
  }

  // ---------------------------------------------------------------------------------------------------------
  // The invariant
  // ---------------------------------------------------------------------------------------------------------

  /** No trace of earlier use. */
  predicate Clean(c: Content) {
    && AllZero(c.out) && AllZero(c.packet) && c.size == 0 && c.peer.None?
    && (c.header == Made(0, 0, 0) || c.header == Fields(0, 0, 0, 0, 0))
  }

  /** A packet read from the tunnel, and behind it nothing but zeros. */
  predicate FromTunnel(c: Content, read: set<seq<Byte>>) {
    && AllZero(c.out) && c.size <= BUFFER_SIZE && AllZero(c.packet[c.size..]) && c.packet[..c.size] in read
    && c.peer.None?
  }

  predicate IsKeepalive(c: Content, id: PeerId) {
    c.peer == Some(id) && Clean(c.(peer := None))
  }

  /** A packet to an address of peer id, inside the network and not the node's own. */
  predicate RoutedTo(c: Content, id: PeerId, past: Past) {
    var dst := DestinationIn(c);
    FromTunnel(c, past.read) && past.ip.Reaches(dst) && (dst, id) in past.told
  }

  predicate Fits(p: Place, c: Content, past: Past) {
    match p
    case Reader => Clean(c)
    case Router => FromTunnel(c, past.read)
    case Timer(_) => Clean(c)
    case Handshaker(_) => Clean(c)
    case Outbox(id) => IsKeepalive(c, id) || RoutedTo(c, id, past)
    case SendLoop(id) => IsKeepalive(c, id) || RoutedTo(c, id, past)
  }

  function Fit(past: Past): (Place, Content) -> bool {
    (p, c) => Fits(p, c, past)
  }

  function Capacity(p: Place): nat {
    if p.Outbox? then OUTBOUND_SIZE else 1
  }

  predicate InCapacity<B>(l: Ledger<Place, B>) {
    forall p | p in l.held :: |l.held[p]| <= Capacity(p)
  }

  ghost predicate Inv<B>(s: Sys<B>) {
    && Kept(s.store, Clean, Fit(s.Known()))
    && InCapacity(s.store.ledger)
    && forall a | a in s.routes.peers :: (a, s.routes.peers[a]) in s.told
  }

  ghost predicate Initial<B>(s: Sys<B>) {
    Empty(s.store.ledger) && s.store.contents == map[] && s.read == {} && s.told == {} && s.routes.peers == map[]
  }

  ghost predicate IsRun<B>(s: Sys<B>, events: seq<Event<B>>)
    decreases |events|
  {
    events == [] || (Enabled(s, events[0]) && IsRun(Apply(s, events[0]), events[1..]))
  }

  ghost function Run<B>(s: Sys<B>, events: seq<Event<B>>): Sys<B>
    requires IsRun(s, events)
    decreases |events|
  {
    if events == [] then s else Run(Apply(s, events[0]), events[1..])
  }

  // ---------------------------------------------------------------------------------------------------------
  // Every step keeps the invariant
  // ---------------------------------------------------------------------------------------------------------

  lemma FirstFits<B>(s: Sys<B>, p: Place)
    requires Inv(s) && s.At(p) != []
    ensures Holds(s, p) && Fits(p, First(s, p), s.Known())
  {
    assert p in s.store.ledger.held && s.store.Next(p) in s.store.ledger.held[p];
    assert Fit(s.Known())(p, First(s, p));
  }

  lemma InRange<B>(s: Sys<B>, p: Place)
    requires Inv(s) && s.At(p) != []
    ensures Holds(s, p) && First(s, p).size <= BUFFER_SIZE
  {
    FirstFits(s, p);
  }

  predicate Extends(past: Past, more: Past) {
    more.ip == past.ip && past.told <= more.told && past.read <= more.read
  }

  lemma FitsMore(p: Place, c: Content, past: Past, more: Past)
    requires Fits(p, c, past) && Extends(past, more)
    ensures Fits(p, c, more)
  {
  }

  lemma MoreKnown<B>(s: Sys<B>, more: Past)
    requires Kept(s.store, Clean, Fit(s.Known())) && Extends(s.Known(), more)
    ensures Kept(s.store, Clean, Fit(more))
  {
    forall p, b | p in s.store.ledger.held && b in s.store.ledger.held[p]
      ensures b in s.store.contents && Fit(more)(p, s.store.contents[b])
    {
      assert Fit(s.Known())(p, s.store.contents[b]);
      FitsMore(p, s.store.contents[b], s.Known(), more);
    }
  }

  lemma PutKeepsInv<B>(s: Sys<B>, p: Place)
    requires Inv(s) && Holds(s, p)
    ensures Inv(PutFirst(s, p))
  {
    StorePutKeeps(s.store, Clean, Fit(s.Known()), p, Cleared());
  }

  /** Nothing of what was written into a buffer is left when it has been returned. */
  lemma PutForgets<B>(s: Sys<B>, t: Sys<B>, p: Place, c: Content)
    requires Holds(s, p) && t == s.(store := s.store.Fill(p, c))
    ensures PutFirst(t, p) == PutFirst(s, p)
  {
    assert t.store.contents[s.store.Next(p) := Cleared()] == s.store.contents[s.store.Next(p) := Cleared()];
  }

  /** Filling a buffer and passing it on is passing on what it is filled with. */
  lemma PassFilled<B>(s: Sys<B>, t: Sys<B>, p: Place, q: Place, c: Content)
    requires Holds(s, p) && p != q && t == s.(store := s.store.Fill(p, c))
    ensures Pass(t, p, q, First(t, p)) == Pass(s, p, q, c)
  {
    assert t.store.contents[s.store.Next(p) := c] == s.store.contents[s.store.Next(p) := c];
  }

  lemma PassKeepsInv<B>(s: Sys<B>, p: Place, q: Place, c: Content)
    requires Inv(s) && Holds(s, p) && p != q && Fits(q, c, s.Known()) && |s.At(q)| < Capacity(q)
    ensures Inv(Pass(s, p, q, c))
  {
    StoreMoveKeeps(s.store, Clean, Fit(s.Known()), p, q, c);
  }

  lemma CleanFits(p: Place, past: Past)
    requires Taker(p)
    ensures forall c | Clean(c) :: Fit(past)(p, c)
  {
  }

  lemma GetInCapacity<B>(l: Ledger<Place, B>, p: Place, b: B)
    requires InCapacity(l) && l.At(p) == []
    ensures InCapacity(l.Get(p, b))
  {
  }

  lemma GetKeepsInv<B>(s: Sys<B>, p: Place, b: B)
    requires Inv(s) && Enabled(s, Event.Get(p, b))
    ensures Inv(s.(store := s.store.Get(p, b, Made0())))
  {
    CleanFits(p, s.Known());
    assert Clean(Made0());
    StoreGetKeeps(s.store, Clean, Fit(s.Known()), p, b, Made0());
    GetInCapacity(s.store.ledger, p, b);
  }

  lemma ReadKeepsInv<B>(s: Sys<B>, packet: seq<Byte>)
    requires Inv(s) && Enabled(s, Event<B>.Read(packet))
    ensures Inv(Apply(s, Event<B>.Read(packet)))
  {
    FirstFits(s, Reader);
    ZerosBehind(First(s, Reader).packet, packet);
    var t := s.(read := s.read + {Cut(packet)});
    MoreKnown(s, t.Known());
    PassKeepsInv(t, Reader, Router, Loaded(First(s, Reader), packet));
  }

  lemma RouteKeepsInv<B>(s: Sys<B>, id: PeerId)
    requires Inv(s) && Holds(s, Router) && Target(s.routes, First(s, Router)) == Some(id)
    ensures Inv(Queued(s, id))
  {
    FirstFits(s, Router);
    if id !in s.running {
      PutKeepsInv(s, Router);
    } else if |s.At(Outbox(id))| < OUTBOUND_SIZE {
      PassKeepsInv(s, Router, Outbox(id), First(s, Router));
    } else {
      StoreLoseKeeps(s.store, Clean, Fit(s.Known()), Router, First(s, Router));
    }
  }

  lemma QueueKeepsInv<B>(s: Sys<B>, e: Event<B>)
    requires Inv(s) && Enabled(s, e) && (e.Keepalive? || e.TakeOutbound?)
    ensures Inv(Apply(s, e))
  {
    if e.Keepalive? {
      FirstFits(s, Timer(e.id));
      PassKeepsInv(s, Timer(e.id), Outbox(e.id), First(s, Timer(e.id)).(peer := Some(e.id)));
    } else {
      FirstFits(s, Outbox(e.id));
      PassKeepsInv(s, Outbox(e.id), SendLoop(e.id), First(s, Outbox(e.id)));
    }
  }

  lemma StepKeepsInv<B>(s: Sys<B>, e: Event<B>)
    requires Inv(s) && Enabled(s, e)
    ensures Inv(Apply(s, e))
  {
    match e
    case Get(p, b) => GetKeepsInv(s, p, b);
    case Collect(b) => CollectKeeps(s.store, Clean, Fit(s.Known()), b);
    case ReadFails => PutKeepsInv(s, Reader);
    case Read(packet) => ReadKeepsInv(s, packet);
    case Route(parsed) =>
      if parsed && Target(s.routes, First(s, Router)).Some? {
        RouteKeepsInv(s, Target(s.routes, First(s, Router)).value);
      } else {
        PutKeepsInv(s, Router);
      }
    case Keepalive(id) => QueueKeepsInv(s, e);
    case TakeOutbound(id) => QueueKeepsInv(s, e);
    case Send(id) => PutKeepsInv(s, SendLoop(id));
    case WriteHandshake(id) => PutKeepsInv(s, Handshaker(id));
    case FlushOutbound(id) => PutKeepsInv(s, Outbox(id));
    case Running(_, _) =>
    case AddPeer(address, id) => MoreKnown(s, Learned(s, address, id).Known());
  }

  lemma {:induction false} RunKeepsInv<B>(s: Sys<B>, events: seq<Event<B>>)
    requires Inv(s) && IsRun(s, events)
    ensures Inv(Run(s, events)) && Run(s, events).routes.ip == s.routes.ip
    decreases |events|
  {
    if events != [] {
      StepKeepsInv(s, events[0]);
      RunKeepsInv(Apply(s, events[0]), events[1..]);
    }
  }

  lemma InitialInv<B>(s: Sys<B>)
    requires Initial(s)
    ensures Inv(s)
  {
    assert Total(s.store.ledger.held) == multiset{};
  }

  // ---------------------------------------------------------------------------------------------------------
  // Results
  // ---------------------------------------------------------------------------------------------------------

  /** Reading the destination from the whole buffer is reading it from the packet padded with zeros. */
  lemma DestinationOfPacket(c: Content, read: set<seq<Byte>>)
    requires FromTunnel(c, read)
    ensures DestinationIn(c) == Network.Destination(c.packet[..c.size])
  {
    var p := c.packet[..c.size];
    forall i | 16 <= i < 20 ensures c.packet[i] == Network.ByteAt(p, i) {
      if i >= c.size {
        assert c.packet[c.size..][i - c.size] == 0;
      }
    }
    assert c.packet[16..20] ==
           [Network.ByteAt(p, 16), Network.ByteAt(p, 17), Network.ByteAt(p, 18), Network.ByteAt(p, 19)];
  }

  /** A packet read from the tunnel for an address of peer id, or the empty payload of a keepalive. */
  predicate Sendable(c: Content, id: PeerId, past: Past) {
    && c.size <= BUFFER_SIZE
    && if c.peer.None? then
         var plain := c.packet[..c.size];
         && plain in past.read && past.ip.Reaches(Network.Destination(plain))
         && (Network.Destination(plain), id) in past.told
       else c.peer == Some(id) && c.packet[..c.size] == []
  }

  lemma QueuedIsSendable(c: Content, id: PeerId, past: Past)
    requires IsKeepalive(c, id) || RoutedTo(c, id, past)
    ensures Sendable(c, id, past)
  {
    if c.peer.None? {
      DestinationOfPacket(c, past.read);
    }
  }

  /** In every run, the plaintext packet[:size] that a peer's sending loop encrypts is within bounds, and either a
      packet read from the tunnel whose destination is an address the node was told for this peer, inside the network
      and not the node's own, or the empty payload of a keepalive. */
  lemma PlaintextsAreRoutedOrEmpty<B>(start: Sys<B>, events: seq<Event<B>>, id: PeerId, b: B)
    requires Initial(start) && IsRun(start, events)
    requires b in Run(start, events).At(SendLoop(id)) || b in Run(start, events).At(Outbox(id))
    ensures b in Run(start, events).store.contents
    ensures Sendable(Run(start, events).store.contents[b], id, Run(start, events).Known())
    ensures Run(start, events).Known().ip == start.routes.ip
  {
    InitialInv(start);
    RunKeepsInv(start, events);
    var s := Run(start, events);
    var p := if b in s.At(SendLoop(id)) then SendLoop(id) else Outbox(id);
    assert b in s.store.ledger.held[p] && Fit(s.Known())(p, s.store.contents[b]);
    QueuedIsSendable(s.store.contents[b], id, s.Known());
  }

  /** Where a peer has one address, whatever its sending loop encrypts is a keepalive or a packet that Network routes to
      that address. */
  lemma PlaintextsAreNetworkPackets<B>(start: Sys<B>, events: seq<Event<B>>, id: PeerId, b: B, address: nat)
    requires Initial(start) && IsRun(start, events)
    requires b in Run(start, events).At(SendLoop(id)) || b in Run(start, events).At(Outbox(id))
    requires forall a | (a, id) in Run(start, events).told :: a == address
    ensures b in Run(start, events).store.contents
    ensures var c := Run(start, events).store.contents[b];
            && c.size <= BUFFER_SIZE
            && (c.packet[..c.size] == []
                || Network.Routed(Network.Overlay(start.routes.ip, address), c.packet[..c.size]))
  {
    PlaintextsAreRoutedOrEmpty(start, events, id, b);
  }

  /** A step that drops the buffer it routes: its peer runs and the peer's channel is full. */
  predicate Drops<B>(s: Sys<B>, e: Event<B>)
    requires Enabled(s, e)
  {
    e.Route? && e.parsed && Target(s.routes, First(s, Router)).Some? &&
    var id := Target(s.routes, First(s, Router)).value;
    id in s.running && |s.At(Outbox(id))| >= OUTBOUND_SIZE
  }

  ghost function Dropped<B>(s: Sys<B>, events: seq<Event<B>>): nat
    requires IsRun(s, events)
    decreases |events|
  {
    if events == [] then 0 else
      (if Drops(s, events[0]) then 1 else 0) + Dropped(Apply(s, events[0]), events[1..])
  }

  lemma StepDrops<B>(s: Sys<B>, e: Event<B>)
    requires Enabled(s, e)
    ensures |Apply(s, e).store.ledger.lost| == |s.store.ledger.lost| + if Drops(s, e) then 1 else 0
  {
  }

  lemma {:induction false} RunDrops<B>(s: Sys<B>, events: seq<Event<B>>)
    requires IsRun(s, events)
    ensures |Run(s, events).store.ledger.lost| == |s.store.ledger.lost| + Dropped(s, events)
    decreases |events|
  {
    if events != [] {
      StepDrops(s, events[0]);
      RunDrops(Apply(s, events[0]), events[1..]);
    }
  }

  /** In every run the buffers are in order, and those dropped are exactly the packets for full channels. */
  lemma EveryRunIsInOrder<B>(start: Sys<B>, events: seq<Event<B>>)
    requires Initial(start) && IsRun(start, events)
    ensures InOrder(Run(start, events).store, Clean, Dropped(start, events))
  {
    InitialInv(start);
    RunKeepsInv(start, events);
    RunDrops(start, events);
    KeptIsInOrder(Run(start, events).store, Clean, Fit(Run(start, events).Known()), Dropped(start, events));
  }
}
