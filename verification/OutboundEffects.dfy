/** Where each step of the outbound path leaves the buffer it handles, told by the packet and the ledger alone.  Nothing
    here speaks of how the steps are written. */
module OutboundEffects {
  import opened Options
  import opened Bytes
  import opened Blocks
  import opened Header
  import opened Custody
  import opened OutboundPath
  import Network

  /** The oldest buffer of p is in the pool, without a trace of what was in it. */
  ghost predicate ReturnedClean<B>(s: Sys<B>, t: Sys<B>, p: Place, b: B) {
    Returned(s.store.ledger, t.store.ledger, p, b) && b in t.store.contents && Clean(t.store.contents[b])
  }

  /** The packet the router looks at. */
  function Packet<B>(s: Sys<B>): seq<Byte>
    requires Holds(s, Router)
  {
    var c := First(s, Router);
    if c.size <= BUFFER_SIZE then c.packet[..c.size] else c.packet
  }

  lemma PutReturns<B>(s: Sys<B>, p: Place)
    requires Holds(s, p)
    ensures ReturnedClean(s, PutFirst(s, p), p, s.store.Next(p))
  {
  }

  lemma PassPasses<B>(s: Sys<B>, p: Place, q: Place, c: Content)
    requires Holds(s, p) && p != q
    ensures var t := Pass(s, p, q, c);
            && Passed(s.store.ledger, t.store.ledger, p, q, s.store.Next(p))
            && s.store.Next(p) in t.store.contents && t.store.contents[s.store.Next(p)] == c
  {
  }

  /** A packet whose header was accepted and whose destination is an address of a known peer, in the network and not the
      node's own, is queued for that peer, unchanged, if it runs and has room, and is lost if it has none; every other
      packet's buffer goes back. */
  ghost predicate RoutedByPacket<B>(s: Sys<B>, t: Sys<B>, parsed: bool)
    requires Holds(s, Router)
  {
    var b, dst := s.store.Next(Router), Network.Destination(Packet(s));
    if parsed && s.routes.ip.Valid() && dst != s.routes.ip.addr && s.routes.ip.Contains(dst)
       && dst in s.routes.peers && s.routes.peers[dst] in s.running then
      var id := s.routes.peers[dst];
      if |s.At(Outbox(id))| < OUTBOUND_SIZE then
        && Passed(s.store.ledger, t.store.ledger, Router, Outbox(id), b)
        && b in t.store.contents && t.store.contents[b] == First(s, Router)
      else Gone(s.store.ledger, t.store.ledger, Router, b)
    else ReturnedClean(s, t, Router, b)
  }

  lemma RoutingEffect<B>(s: Sys<B>, parsed: bool)
    requires Inv(s) && Holds(s, Router)
    ensures RoutedByPacket(s, Apply(s, Event<B>.Route(parsed)), parsed)
  {
    FirstFits(s, Router);
    DestinationOfPacket(First(s, Router), s.read);
    PutReturns(s, Router);
  }

  /** In every run. */
  lemma RoutesObeyThePacket<B>(start: Sys<B>, events: seq<Event<B>>, parsed: bool)
    requires Initial(start) && IsRun(start, events) && Holds(Run(start, events), Router)
    ensures var s := Run(start, events); RoutedByPacket(s, Apply(s, Event<B>.Route(parsed)), parsed)
  {
    InitialInv(start);
    RunKeepsInv(start, events);
    RoutingEffect(Run(start, events), parsed);
  }

  /** A packet read from the tunnel is what the router looks at, with nothing but zeros behind it; a keepalive is an
      empty packet; a loop takes the oldest buffer of its channel, unchanged. */
  lemma PassingEffect<B>(s: Sys<B>, e: Event<B>)
    requires Inv(s) && Enabled(s, e) && (e.Read? || e.Keepalive? || e.TakeOutbound?)
    ensures var t := Apply(s, e);
            var (p, q) := match e
                          case Read(_) => (Reader, Router)
                          case Keepalive(id) => (Timer(id), Outbox(id))
                          case TakeOutbound(id) => (Outbox(id), SendLoop(id))
                          case _ => (Reader, Router);
            && s.At(p) != [] && Passed(s.store.ledger, t.store.ledger, p, q, s.store.Next(p))
            && s.store.Next(p) in t.store.contents
            && var c := t.store.contents[s.store.Next(p)];
               && (e.Read? ==>
                     && c.size == |Cut(e.packet)| && c.packet[..c.size] == Cut(e.packet)
                     && AllZero(c.packet[c.size..]))
               && (e.Keepalive? ==> c.size == 0 && c.peer == Some(e.id))
               && (e.TakeOutbound? ==> t.store.contents == s.store.contents)
  {
    match e
    case Read(packet) =>
      FirstFits(s, Reader);
      ZerosBehind(First(s, Reader).packet, packet);
      PassPasses(s, Reader, Router, Loaded(First(s, Reader), packet));
    case Keepalive(id) =>
      FirstFits(s, Timer(id));
      PassPasses(s, Timer(id), Outbox(id), First(s, Timer(id)).(peer := Some(id)));
    case TakeOutbound(id) =>
      PassPasses(s, Outbox(id), SendLoop(id), First(s, Outbox(id)));
  }

  /** Whoever has used a buffer returns it, whatever came of the use. */
  lemma ReturnsEffect<B>(s: Sys<B>, e: Event<B>)
    requires Enabled(s, e) && (e.ReadFails? || e.Send? || e.WriteHandshake? || e.FlushOutbound?)
    ensures var p := match e
                     case ReadFails => Reader
                     case Send(id) => SendLoop(id)
                     case WriteHandshake(id) => Handshaker(id)
                     case FlushOutbound(id) => Outbox(id)
                     case _ => Reader;
            s.At(p) != [] && ReturnedClean(s, Apply(s, e), p, s.store.Next(p))
  {
  }

  /** A goroutine that takes a buffer gets one without a trace of earlier use. */
  lemma GettingEffect<B>(s: Sys<B>, p: Place, b: B)
    requires Inv(s) && Enabled(s, Event.Get(p, b))
    ensures var t := Apply(s, Event.Get(p, b));
            Obtained(s.store.ledger, t.store.ledger, p, b) && Holds(t, p) && Clean(First(t, p))
  {
    assert [b] == s.At(p) + [b];
    if b in s.store.ledger.pool {
      assert b in s.store.contents && Clean(s.store.contents[b]);
    }
  }

  // ---------------------------------------------------------------------------------------------------------
  // Routes
  // ---------------------------------------------------------------------------------------------------------

  /** The peer this address was last told for. */
  function LastTold<B>(events: seq<Event<B>>, address: nat): Option<PeerId> {
    if events == [] then None
    else
      var later := LastTold(events[1..], address);
      if later.Some? then later
      else if events[0].AddPeer? && events[0].address == address then Some(events[0].id) else None
  }

  /** Whether this peer was last started or stopped. */
  function LastSwitched<B>(events: seq<Event<B>>, id: PeerId): Option<bool> {
    if events == [] then None
    else
      var later := LastSwitched(events[1..], id);
      if later.Some? then later
      else if events[0].Running? && events[0].id == id then Some(events[0].on) else None
  }

  lemma StepRoutes<B>(s: Sys<B>, e: Event<B>, address: nat, id: PeerId)
    requires Enabled(s, e)
    ensures var t := Apply(s, e);
            && t.routes.ip == s.routes.ip && t.node == s.node
            && (address in t.routes.peers <==> (e.AddPeer? && e.address == address) || address in s.routes.peers)
            && (address in t.routes.peers ==>
                  t.routes.peers[address] ==
                  if e.AddPeer? && e.address == address then e.id else s.routes.peers[address])
            && (id in t.running <==> if e.Running? && e.id == id then e.on else id in s.running)
  {
  }

  /** In every run an address leads to the peer it was last told for, a peer runs if it was last started, and the node
      keeps its own address. */
  lemma {:induction false} RoutesAreTheLatest<B>(s: Sys<B>, events: seq<Event<B>>, address: nat, id: PeerId)
    requires IsRun(s, events)
    ensures var t := Run(s, events);
            && t.routes.ip == s.routes.ip && t.node == s.node
            && (address in t.routes.peers <==> LastTold(events, address).Some? || address in s.routes.peers)
            && (address in t.routes.peers ==>
                  t.routes.peers[address] ==
                  if LastTold(events, address).Some? then LastTold(events, address).value else s.routes.peers[address])
            && (id in t.running <==>
                  if LastSwitched(events, id).Some? then LastSwitched(events, id).value else id in s.running)
    decreases |events|
  {
    if events != [] {
      StepRoutes(s, events[0], address, id);
      RoutesAreTheLatest(Apply(s, events[0]), events[1..], address, id);
    }
  }

  // ---------------------------------------------------------------------------------------------------------
  // On the wire
  // ---------------------------------------------------------------------------------------------------------

  /** The datagrams a node sends are accepted at the other end as what they are: they name the node, carry the nonce or
      the counter, and the box or the message is what follows the header. */
  lemma SentDatagramsParse(node: Uint32, counter: Uint64, body: seq<Byte>)
    ensures var d := DataDatagram(node, counter, body);
            && Accepted(d) && FieldsOf(d).messageType == DATA && FieldsOf(d).senderIndex == node
            && FieldsOf(d).counter == counter && d[HEADER_LEN..] == body
    ensures var d := HandshakeDatagram(node, counter, body);
            && Accepted(d) && FieldsOf(d).messageType == HANDSHAKE && FieldsOf(d).senderIndex == node
            && FieldsOf(d).counter == counter && d[HEADER_LEN..] == body
  {
    FieldsOfLayout(Made(DATA, node, counter), body);
    FieldsOfLayout(Made(HANDSHAKE, node, counter), body);
  }
}
