/** Two nodes, each with the other one as its remote peer, over a network that may lose, reorder and duplicate
    datagrams but does not invent them.  A node's record carries, besides its peer, the histories the properties
    speak of: everything ever sent to it, the sessions it installed as a responder, the initiations it sent, the
    packets it encrypted, the packets its outbound channel accepted and what became of each, and what it wrote to
    its tunnel. */
module Network {
  import opened Options
  import opened Bytes
  import opened Blocks
  import opened Symbolic
  import opened PeerMachine
  import opened Netip

  /** Overlay addressing of a node: its own address and network, and the address it has for its peer. */
  datatype Overlay = Overlay(ip: Prefix, peerIp: nat)

  datatype Install = Install(ei: Ephemeral, er: Ephemeral, tx: Key, rx: Key)

  /** What became of a packet that has left the outbound channel. */
  datatype Fate = InHand | Sent | Flushed | Failed

  datatype Node = Node(
    peer: Peer,
    overlay: Overlay,
    drawn: nat,
    mail: set<Message>,
    installs: seq<Install>,
    live: bool,              // no timeout or reset since the last of `installs`
    inits: seq<Ephemeral>,
    attempt: nat,            // initiations sent since the peer last was outside state 1
    sealed: seq<Sealed>,
    accepted: seq<Payload>,
    fates: seq<Fate>,
    written: seq<Payload>)

  datatype Sys = Sys(west: Node, east: Node)
  {
    function At(side: Side): Node {
      if side.West? then west else east
    }

    function With(side: Side, n: Node, other: Node): Sys {
      if side.West? then Sys(n, other) else Sys(other, n)
    }
  }

  /** One handler of one node runs. */
  datatype Action = Action(side: Side, event: Event)

  // ---------------------------------------------------------------------------------------------------------
  // Reading a packet from the tunnel
  // ---------------------------------------------------------------------------------------------------------

  /** A byte of the 1600-byte buffer a packet was read into: zero behind the packet. */
  function ByteAt(packet: Payload, i: nat): Byte {
    if i < |packet| then packet[i] else 0
  }

  /** The destination address field of the IPv4 header (RFC 791, section 3.1). */
  function Destination(packet: Payload): nat {
    Number([ByteAt(packet, 16), ByteAt(packet, 17), ByteAt(packet, 18), ByteAt(packet, 19)])
  }

  /** The destination is the big-endian number in the four bytes behind the first sixteen. */
  lemma DestinationBytes(start: Payload, dst: nat, rest: Payload)
    requires |start| == 16 && dst < Pow256(4)
    ensures Destination(start + BigEndian(dst, 4) + rest) == dst
  {
    var packet := start + BigEndian(dst, 4) + rest;
    assert [ByteAt(packet, 16), ByteAt(packet, 17), ByteAt(packet, 18), ByteAt(packet, 19)] == BigEndian(dst, 4);
    NumberOfBytes(dst, 4);
  }

  /** The checks a packet passes on its way to the peer. */
  predicate Routed(o: Overlay, packet: Payload) {
    && |packet| <= BUFFER_SIZE
    && o.ip.Reaches(Destination(packet))
    && Destination(packet) == o.peerIp
  }

  // ---------------------------------------------------------------------------------------------------------
  // Steps
  // ---------------------------------------------------------------------------------------------------------

  function Boxes(sent: Option<Datagram>): seq<Sealed> {
    if sent.Some? && sent.value.message.Data? then [sent.value.message.box] else []
  }

  function Initiations(sent: Option<Datagram>): seq<Ephemeral> {
    if sent.Some? && sent.value.message.Handshake? && sent.value.message.body.Init?
    then [sent.value.message.body.ei] else []
  }

  /** The packets the outbound channel accepts in a step: one read from the tunnel, or an empty keepalive. */
  function Accepted(p: Peer, event: Event): seq<Payload> {
    if event.FromTunnel? && p.running && |p.outbound| < OUTBOUND_SIZE then [event.packet]
    else if event.KeepaliveTimeout? && p.outbound == [] then [[]]
    else []
  }

  /** The packet in hand has met its fate. */
  function Resolved(fates: seq<Fate>, fate: Fate): (r: seq<Fate>)
    ensures |r| == |fates|
  {
    seq(|fates|, i requires 0 <= i < |fates| => if fates[i] == InHand then fate else fates[i])
  }

  /** How many packets a step flushes. */
  function FlushCount(p: Peer, event: Event, after: Peer): nat {
    var gone := |p.outbound| + |Accepted(p, event)| - |after.outbound|;
    if gone <= 0 then 0 else gone
  }

  /** The fates after a step. */
  function Settled(fates: seq<Fate>, p: Peer, event: Event, after: Peer, sent: Option<Datagram>): seq<Fate> {
    match event
    case TakeOutbound => fates + [InHand]
    case SendOutbound => Resolved(fates, if sent.None? then Failed else Sent)
    case _ => fates + seq(FlushCount(p, event, after), _ => Flushed)
  }

  predicate Installs(p: Peer, event: Event) {
    event.HandshakeLoop? && !p.initiator
  }

  function InstallOf(p: Peer): seq<Install> {
    if p.tx.Some? && p.rx.Some? then
      [Install(p.tx.value.key.initiator, p.tx.value.key.responder, p.tx.value.key, p.rx.value.key)]
    else []
  }

  function Record(n: Node, event: Event, after: Peer, sent: Option<Datagram>, written: Option<Payload>): Node {
    Node(after, n.overlay, n.drawn + 1, n.mail,
         n.installs + if Installs(n.peer, event) then InstallOf(after) else [],
         Installs(n.peer, event) || (n.live && after.state == 2),
         n.inits + Initiations(sent),
         if after.state != 1 then 0 else (if n.peer.state == 1 then n.attempt else 0) + |Initiations(sent)|,
         n.sealed + Boxes(sent),
         n.accepted + Accepted(n.peer, event),
         Settled(n.fates, n.peer, event, after, sent),
         n.written + if written.Some? then [written.value] else [])
  }

  function Receive(n: Node, sent: Option<Datagram>): Node {
    if sent.Some? then n.(mail := n.mail + {sent.value.message}) else n
  }

  /** A packet read from the tunnel that goes nowhere. */
  predicate Dropped(n: Node, event: Event) {
    event.FromTunnel? && !Routed(n.overlay, event.packet)
  }

  /** The network only delivers what was sent to this node, any number of times and in any order. */
  predicate Arrived(n: Node, event: Event) {
    && (event.HandshakeArrives? ==> Handshake(event.h.counter, event.h.body) in n.mail)
    && (event.DataArrives? ==> Data(event.d.counter, event.d.box) in n.mail)
  }

  function Taken(n: Node, side: Side, event: Event): Outcome {
    Step(n.peer, event, Ephemeral(side, n.drawn))
  }

  function After(n: Node, side: Side, event: Event): Node
    requires Taken(n, side, event).Ok?
  {
    var o := Taken(n, side, event);
    Record(n, event, o.peer, o.sent, o.written)
  }

  /** None when the step is blocked or crashes the process: crashed runs end there. */
  function Apply(s: Sys, a: Action): Option<Sys> {
    var n, m := s.At(a.side), s.At(a.side.Other());
    var o := Taken(n, a.side, a.event);
    if Dropped(n, a.event) then Some(s)
    else if !Arrived(n, a.event) || !o.Ok? then None
    else Some(s.With(a.side, After(n, a.side, a.event), Receive(m, o.sent)))
  }

  function Run(s: Sys, actions: seq<Action>): Option<Sys>
    decreases |actions|
  {
    if actions == [] then Some(s)
    else
      match Apply(s, actions[0])
      case Some(t) => Run(t, actions[1..])
      case None => None
  }

  function NewNode(o: Overlay, raddr: Endpoint): Node {
    Node(NewPeer(raddr), o, 0, {}, [], false, [], 0, [], [], [], [])
  }

  /** Two fresh nodes that know each other's overlay address. */
  predicate Initial(s: Sys) {
    && s.west == NewNode(s.west.overlay, s.west.peer.raddr)
    && s.east == NewNode(s.east.overlay, s.east.peer.raddr)
    && s.west.overlay.peerIp == s.east.overlay.ip.addr
    && s.east.overlay.peerIp == s.west.overlay.ip.addr
  }
}
