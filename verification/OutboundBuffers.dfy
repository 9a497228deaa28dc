/** The outbound buffers in memory, as InboundBuffers has the inbound ones.  Each method does what the event of the
    same name does in OutboundPath. */
module OutboundBuffers {
  import opened Options
  import opened Bytes
  import opened Blocks
  import opened Header
  import opened Custody
  import opened OutboundPath
  import opened Netip

  class OutboundBuffer {
    const out: array<Byte>        // to the socket
    const packet: array<Byte>     // from the tunnel
    const header: Header
    var size: nat
    var peer: Option<PeerId>

    ghost predicate Shaped() {
      out.Length == BUFFER_SIZE && packet.Length == BUFFER_SIZE && out != packet
    }

    ghost function View(): Content
      reads this, out, packet, header
      requires Shaped()
    {
      Content(out[..], packet[..], size, header.View(), peer)
    }

    constructor ()
      ensures Shaped() && View() == Made0()
      ensures fresh(out) && fresh(packet) && fresh(header)
    {
      out := new Byte[BUFFER_SIZE](i => 0);
      packet := new Byte[BUFFER_SIZE](i => 0);
      header := new Header();
      size := 0;
      peer := None;
    }

    method Clear()
      requires Shaped()
      modifies this, out, packet, header
      ensures View() == Cleared()
    {
      Zero(out, BUFFER_SIZE);
      Zero(packet, BUFFER_SIZE);
      size := 0;
      peer := None;
      header.Reset();
    }

    /** Encode the header into `out` and append the body, in place if it fits; the result is what goes on the wire. */
    method Write(messageType: Byte, node: Uint32, counter: Uint64, body: seq<Byte>) returns (wire: seq<Byte>)
      requires Shaped()
      modifies out, header
      ensures wire == Layout(Made(messageType, node, counter)) + body
    {
      var err := Encode(header, out, messageType, node, counter);
      var head := out[..HEADER_LEN];
      if HEADER_LEN + |body| <= out.Length {
        CopyInto(out, head + body);
        return out[..HEADER_LEN + |body|];
      }
      return head + body;
    }
  }

  class Sender {
    const node: Uint32
    var routes: Routes
    var free: multiset<OutboundBuffer>
    var inUse: int
    var held: map<Place, seq<OutboundBuffer>>
    var running: set<PeerId>
    ghost var contents: map<OutboundBuffer, Content>
    ghost var lost: multiset<OutboundBuffer>
    ghost var told: set<(nat, PeerId)>
    ghost var read: set<seq<Byte>>

    /** No two buffers share memory, and `contents` is what is in it. */
    ghost predicate Coupled()
      reads this`contents, contents.Keys
      reads set b | b in contents :: b.out
      reads set b | b in contents :: b.packet
      reads set b | b in contents :: b.header
    {
      && (forall b | b in contents :: b.Shaped() && b.View() == contents[b])
      && (forall b, c | b in contents && c in contents && b != c ::
            b.header != c.header && b.out != c.out && b.out != c.packet && b.packet != c.packet)
    }

    ghost function View(): Sys<OutboundBuffer>
      reads this
    {
      Sys(Store(Ledger(free, held, lost, inUse), contents), node, routes, running, told, read)
    }

    /** The buffer that p would give away next. */
    ghost predicate Has(p: Place, buffer: OutboundBuffer)
      reads this
    {
      Holds(View(), p) && View().At(p)[0] == buffer
    }

    constructor (node: Uint32, ip: Prefix)
      ensures Coupled() && Initial(View()) && View().running == {}
    {
      this.node, routes, told := node, Routes(ip, map[]), {};
      free, inUse, held, running := multiset{}, 0, map[], {};
      contents, lost, read := map[], multiset{}, {};
    }

    /** After a change to one buffer alone. */
    twostate lemma OneBuffer(buffer: OutboundBuffer)
      requires old(Coupled()) && buffer in old(contents)
      requires contents == old(contents)[buffer := buffer.View()]
      requires forall c | c in old(contents) && c != buffer ::
                 unchanged(c) && unchanged(c.out) && unchanged(c.packet) && unchanged(c.header)
      ensures Coupled()
    {
      forall c | c in contents ensures c.Shaped() && c.View() == contents[c] {
      }
    }

    // -------------------------------------------------------------------------------------------------------
    // The pool and the channels
    // -------------------------------------------------------------------------------------------------------

    method NewOutboundBuffer() returns (buffer: OutboundBuffer)
      requires Coupled()
      modifies this`contents
      ensures Coupled() && buffer !in old(contents) && contents == old(contents)[buffer := Made0()]
    {
      buffer := new OutboundBuffer();
      contents := contents[buffer := buffer.View()];
      assert buffer !in old(contents);
      forall c | c in old(contents)
        ensures c.Shaped() && c.View() == contents[c] && c.header != buffer.header
        ensures c.out != buffer.out && c.out != buffer.packet && c.packet != buffer.packet && c.packet != buffer.out
      {
      }
    }

    method Handed(p: Place, buffer: OutboundBuffer)
      requires Coupled() && View().At(p) == []
      modifies this`free, this`inUse, this`held
      ensures Coupled()
      ensures View().At(p) == [buffer]
      ensures View() == old(View()).(store := old(View().store).(ledger := old(View().store.ledger).Get(p, buffer)))
    {
      inUse := inUse + 1;
      free := free - multiset{buffer};
      held := held[p := [buffer]];
      assert [buffer] == old(View()).At(p) + [buffer];
    }

    /** The pool hands out one of its buffers, or makes one if `pick` is null. */
    method GetOutboundBuffer(p: Place, pick: OutboundBuffer?) returns (buffer: OutboundBuffer)
      requires Coupled() && (pick != null ==> pick in free && pick in contents) && Taker(p) && View().At(p) == []
      modifies this`free, this`inUse, this`held, this`contents
      ensures Coupled() && View().At(p) == [buffer] && buffer in contents
      ensures Enabled(old(View()), Event.Get(p, buffer))
      ensures View() == old(View()).(store := old(View()).store.Get(p, buffer, Made0()))
    {
      if pick == null {
        buffer := NewOutboundBuffer();
      } else {
        buffer := pick;
      }
      Handed(p, buffer);
    }

    method ClearBuffer(buffer: OutboundBuffer)
      requires Coupled() && buffer in contents
      modifies this`contents, buffer, buffer.out, buffer.packet, buffer.header
      ensures Coupled() && contents == old(contents)[buffer := Cleared()]
    {
      buffer.Clear();
      contents := contents[buffer := buffer.View()];
      OneBuffer(buffer);
    }

    method Returned(p: Place)
      requires Coupled() && View().At(p) != []
      modifies this`free, this`inUse, this`held
      ensures Coupled()
      ensures View() == old(View()).(store := old(View().store).(ledger := old(View().store.ledger).Put(p)))
    {
      free := free + multiset{held[p][0]};
      held := held[p := held[p][1..]];
      inUse := inUse - 1;
    }

    method PutOutboundBuffer(buffer: OutboundBuffer, p: Place)
      requires Coupled() && Has(p, buffer)
      modifies this`free, this`inUse, this`held, this`contents, buffer, buffer.out, buffer.packet, buffer.header
      ensures Coupled() && View() == PutFirst(old(View()), p)
    {
      ClearBuffer(buffer);
      Returned(p);
    }

    /** p's goroutine sends its buffer on channel q, or q's goroutine receives it from channel p. */
    method PassOn(p: Place, q: Place)
      requires Coupled() && p != q && Holds(View(), p)
      modifies this`held
      ensures Coupled()
      ensures View() == Pass(old(View()), p, q, First(old(View()), p))
    {
      var queued := if q in held then held[q] else [];
      assert contents[held[p][0] := contents[held[p][0]]] == contents;
      held := held[p := held[p][1..]][q := queued + [held[p][0]]];
    }

    /** The router forgets its buffer. */
    method Forget()
      requires Coupled() && Holds(View(), Router)
      modifies this`held, this`lost
      ensures Coupled()
      ensures View() == old(View()).(store := old(View().store).Lose(Router, First(old(View()), Router)))
    {
      assert contents[held[Router][0] := contents[held[Router][0]]] == contents;
      lost := lost + multiset{held[Router][0]};
      held := held[Router := held[Router][1..]];
    }

    method AddPeer(address: nat, id: PeerId)
      modifies this`routes, this`told
      ensures View() == Learned(old(View()), address, id)
    {
      routes := routes.(peers := routes.peers[address := id]);
      told := told + {(address, id)};
    }

    // -------------------------------------------------------------------------------------------------------
    // The goroutines
    // -------------------------------------------------------------------------------------------------------

    method ReadFromTunnel(buffer: OutboundBuffer, packet: seq<Byte>)
      requires Coupled() && buffer in contents
      modifies this`contents, buffer`size, buffer.packet
      ensures Coupled() && contents == old(contents)[buffer := Loaded(old(contents)[buffer], packet)]
    {
      CopyInto(buffer.packet, Cut(packet));
      buffer.size := |Cut(packet)|;
      contents := contents[buffer := buffer.View()];
      OneBuffer(buffer);
    }

    method ReadInto(buffer: OutboundBuffer, packet: seq<Byte>)
      requires Coupled() && Has(Reader, buffer) && View().At(Router) == []
      modifies this`held, this`contents, this`read, buffer`size, buffer.packet
      ensures Coupled() && View() == PacketRead(old(View()), packet)
    {
      ghost var s := View();
      read := read + {Cut(packet)};
      ReadFromTunnel(buffer, packet);
      PassFilled(s.(read := read), View(), Reader, Router, contents[buffer]);
      PassOn(Reader, Router);
    }

    /** What Node.ReadTunPackets does with the buffer it got: None is a failed read. */
    method ReadTunPacket(buffer: OutboundBuffer, packet: Option<seq<Byte>>)
      requires Coupled() && Has(Reader, buffer) && View().At(Router) == []
      modifies this`free, this`inUse, this`held, this`contents, this`read
      modifies buffer, buffer.out, buffer.packet, buffer.header
      ensures Coupled()
      ensures View() == if packet.None? then PutFirst(old(View()), Reader) else PacketRead(old(View()), packet.value)
    {
      if packet.None? {
        PutOutboundBuffer(buffer, Reader);
      } else {
        ReadInto(buffer, packet.value);
      }
    }

    /** Peer.OutboundPacket, for the buffer the router holds. */
    method OutboundPacket(buffer: OutboundBuffer, id: PeerId)
      requires Coupled() && Has(Router, buffer)
      modifies this`free, this`inUse, this`held, this`contents, this`lost
      modifies buffer, buffer.out, buffer.packet, buffer.header
      ensures Coupled() && View() == Queued(old(View()), id)
    {
      if id !in running {
        PutOutboundBuffer(buffer, Router);
      } else if Outbox(id) !in held || |held[Outbox(id)]| < OUTBOUND_SIZE {
        PassOn(Router, Outbox(id));
      } else {
        Forget();
      }
    }

    /** The checks of OnTunnelPacket on the destination of the packet. */
    method LookupPeer(buffer: OutboundBuffer) returns (to: Option<PeerId>)
      requires Coupled() && buffer in contents
      ensures to == Target(routes, contents[buffer])
    {
      var dst := Number(buffer.packet[16..20]);
      assert buffer.packet[16..20] == contents[buffer].packet[16..20];
      if dst == routes.ip.addr {
        return None;
      }
      if !(routes.ip.Valid() && routes.ip.Contains(dst)) {
        return None;
      }
      return if dst in routes.peers then Some(routes.peers[dst]) else None;
    }

    /** Node.OnTunnelPacket; `parsed` tells whether the library accepted the IPv4 header. */
    method OnTunnelPacket(buffer: OutboundBuffer, parsed: bool)
      requires Coupled() && Has(Router, buffer)
      modifies this`free, this`inUse, this`held, this`contents, this`lost
      modifies buffer, buffer.out, buffer.packet, buffer.header
      ensures Coupled() && View() == Routed(old(View()), parsed)
    {
      if !parsed {
        PutOutboundBuffer(buffer, Router);
        return;
      }
      var to := LookupPeer(buffer);
      if to.None? {
        PutOutboundBuffer(buffer, Router);
      } else {
        OutboundPacket(buffer, to.value);
      }
    }

    /** What Peer.TXTimeout does with the buffer it got, at a moment when the channel has room. */
    method QueueKeepalive(buffer: OutboundBuffer, id: PeerId)
      requires Coupled() && Has(Timer(id), buffer) && |View().At(Outbox(id))| < OUTBOUND_SIZE
      modifies this`held, this`contents, buffer`peer
      ensures Coupled() && View() == KeepaliveQueued(old(View()), id)
    {
      buffer.peer := Some(id);
      contents := contents[buffer := buffer.View()];
      OneBuffer(buffer);
      PassOn(Timer(id), Outbox(id));
    }

    method TakeOutbound(id: PeerId) returns (buffer: OutboundBuffer)
      requires Coupled() && Holds(View(), Outbox(id)) && View().At(SendLoop(id)) == []
      modifies this`held
      ensures Coupled() && View() == Pass(old(View()), Outbox(id), SendLoop(id), First(old(View()), Outbox(id)))
      ensures buffer == old(View()).At(Outbox(id))[0] && View().At(SendLoop(id)) == [buffer]
    {
      buffer := held[Outbox(id)][0];
      PassOn(Outbox(id), SendLoop(id));
    }

    /** Header and body into the buffer that p holds. */
    method WriteOut(buffer: OutboundBuffer, p: Place, messageType: Byte, counter: Uint64, body: seq<Byte>)
      returns (wire: seq<Byte>)
      requires Coupled() && Has(p, buffer)
      modifies this`contents, buffer.out, buffer.header
      ensures Coupled() && Has(p, buffer) && PutFirst(View(), p) == PutFirst(old(View()), p)
      ensures wire == Layout(Made(messageType, node, counter)) + body
    {
      wire := buffer.Write(messageType, node, counter, body);
      contents := contents[buffer := buffer.View()];
      OneBuffer(buffer);
      PutForgets(old(View()), View(), p, contents[buffer]);
    }

    /** What goes on the wire: the header, and packet[:size] encrypted with the nonce in the header. */
    method EncryptOut(buffer: OutboundBuffer, p: Place, nonce: Uint64, encrypt: (nat, seq<Byte>) -> Option<seq<Byte>>)
      returns (wire: Option<seq<Byte>>)
      requires Coupled() && Has(p, buffer) && buffer.size <= BUFFER_SIZE
      modifies this`contents, buffer.out, buffer.header
      ensures Coupled() && Has(p, buffer) && PutFirst(View(), p) == PutFirst(old(View()), p)
      ensures var c := old(contents)[buffer];
              var box := encrypt(nonce, c.packet[..c.size]);
              wire == if box.None? then None else Some(DataDatagram(node, nonce, box.value))
    {
      assert buffer.packet[..buffer.size] == contents[buffer].packet[..buffer.size];
      var box := encrypt(nonce, buffer.packet[..buffer.size]);
      if box.None? {
        return None;
      }
      var sent := WriteOut(buffer, p, DATA, nonce, box.value);
      return Some(sent);
    }

    /** Peer.Outbound has the read lock, encrypts and sends, and returns the buffer. */
    method Send(buffer: OutboundBuffer, id: PeerId, nonce: Uint64, encrypt: (nat, seq<Byte>) -> Option<seq<Byte>>)
      returns (wire: Option<seq<Byte>>)
      requires Coupled() && Has(SendLoop(id), buffer) && buffer.size <= BUFFER_SIZE
      modifies this`free, this`inUse, this`held, this`contents
      modifies buffer, buffer.out, buffer.packet, buffer.header
      ensures Coupled() && View() == PutFirst(old(View()), SendLoop(id))
      ensures var c := old(contents)[buffer];
              var box := encrypt(nonce, c.packet[..c.size]);
              wire == if box.None? then None else Some(DataDatagram(node, nonce, box.value))
    {
      wire := EncryptOut(buffer, SendLoop(id), nonce, encrypt);
      PutOutboundBuffer(buffer, SendLoop(id));
    }

    /** A whole round of Peer.Outbound: in every state a run can reach, the bounds of the slice are in range. */
    method OutboundRound(
        id: PeerId, buffer: OutboundBuffer, nonce: Uint64, encrypt: (nat, seq<Byte>) -> Option<seq<Byte>>)
      returns (wire: Option<seq<Byte>>)
      requires Coupled() && Has(Outbox(id), buffer) && View().At(SendLoop(id)) == [] && Inv(View())
      modifies this`free, this`inUse, this`held, this`contents
      modifies buffer, buffer.out, buffer.packet, buffer.header
      ensures Coupled() && old(contents)[buffer].size <= BUFFER_SIZE
      ensures var s, c := old(View()), old(contents)[buffer];
              var box := encrypt(nonce, c.packet[..c.size]);
              && View() == PutFirst(Pass(s, Outbox(id), SendLoop(id), c), SendLoop(id))
              && wire == if box.None? then None else Some(DataDatagram(node, nonce, box.value))
    {
      InRange(View(), Outbox(id));
      var taken := TakeOutbound(id);
      wire := Send(taken, id, nonce, encrypt);
    }

    /** The writing half of handshakeP1 and handshakeP2. */
    method WriteHandshake(buffer: OutboundBuffer, id: PeerId, counter: Uint64, body: seq<Byte>)
      returns (wire: seq<Byte>)
      requires Coupled() && Has(Handshaker(id), buffer)
      modifies this`free, this`inUse, this`held, this`contents
      modifies buffer, buffer.out, buffer.packet, buffer.header
      ensures Coupled() && View() == PutFirst(old(View()), Handshaker(id))
      ensures wire == HandshakeDatagram(node, counter, body)
    {
      wire := WriteOut(buffer, Handshaker(id), HANDSHAKE, counter, body);
      PutOutboundBuffer(buffer, Handshaker(id));
    }
  }
}
