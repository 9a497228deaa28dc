/** The inbound buffers in memory: the pool, the channels and the goroutines hold references to buffers whose arrays
    are overwritten in place.  Each method does what the event of the same name does in InboundPath. */
module InboundBuffers {
  import opened Options
  import opened Bytes
  import opened Blocks
  import opened Header
  import opened Custody
  import opened InboundPath

  class InboundBuffer {
    const data: array<Byte>       // from the socket
    var packet: array<Byte>       // memory behind the slice for decrypted data
    var length: nat               // and the length of that slice
    const header: Header
    var size: nat
    var raddr: Option<Endpoint>
    var peer: Option<PeerId>

    ghost predicate Shaped()
      reads this
    {
      data.Length == BUFFER_SIZE && data != packet && length <= packet.Length
    }

    ghost function View(): Content
      reads this, data, packet, header
      requires Shaped()
    {
      Content(data[..], packet[..], length, size, header.View(), raddr, peer)
    }

    ghost function Parts(): set<object>
      reads this
    {
      {this, data, packet, header}
    }

    constructor ()
      ensures Shaped() && View() == Made0()
      ensures fresh(data) && fresh(packet) && fresh(header)
    {
      data := new Byte[BUFFER_SIZE](i => 0);
      packet := new Byte[BUFFER_SIZE](i => 0);
      length := BUFFER_SIZE;
      header := new Header();
      size := 0;
      raddr := None;
      peer := None;
    }

    method Clear()
      requires Shaped()
      modifies this`size, this`raddr, this`peer, data, packet, header
      ensures Shaped() && View() == Cleared(old(View()))
    {
      Zero(data, BUFFER_SIZE);
      Zero(packet, length);
      raddr := None;
      size := 0;
      header.Reset();
      peer := None;
    }

    method Append(plain: seq<Byte>)
      requires Shaped()
      modifies this`packet, this`length, packet
      ensures Shaped() && View() == Decrypted(old(View()), plain)
      ensures packet == old(packet) || fresh(packet)
    {
      if |plain| > packet.Length {
        packet := new Byte[|plain|];
      }
      CopyInto(packet, plain);
      length := |plain|;
      var kept := if |plain| <= old(packet).Length then |plain| else old(packet).Length;
      assert packet[..] == plain + old(packet[..])[kept..];
    }
  }

  class Receiver {
    var free: multiset<InboundBuffer>
    var inUse: int
    var held: map<Place, seq<InboundBuffer>>
    var peers: set<PeerId>
    var running: set<PeerId>
    ghost var contents: map<InboundBuffer, Content>
    ghost var lost: multiset<InboundBuffer>
    ghost var arrived: set<(seq<Byte>, Endpoint)>

    /** No two buffers share memory, and `contents` is what is in it. */
    ghost predicate Coupled()
      reads this`contents, contents.Keys
      reads set b | b in contents :: b.data
      reads set b | b in contents :: b.packet
      reads set b | b in contents :: b.header
    {
      && (forall b | b in contents :: b.Shaped() && b.View() == contents[b])
      && (forall b, c | b in contents && c in contents && b != c ::
            b.header != c.header && b.data != c.data && b.data != c.packet && b.packet != c.packet)
    }

    ghost function View(): Sys<InboundBuffer>
      reads this
    {
      Sys(Store(Ledger(free, held, lost, inUse), contents), peers, running, arrived)
    }

    /** After a change to one buffer alone. */
    twostate lemma OneBuffer(buffer: InboundBuffer)
      requires old(Coupled()) && buffer in old(contents) && buffer.Shaped()
      requires contents == old(contents)[buffer := buffer.View()]
      requires buffer.packet == old(buffer.packet) || fresh(buffer.packet)
      requires forall c | c in old(contents) && c != buffer ::
                 unchanged(c) && unchanged(c.data) && unchanged(c.packet) && unchanged(c.header)
      ensures Coupled()
    {
      forall c | c in contents ensures c.Shaped() && c.View() == contents[c] {
      }
    }

    constructor (peers: set<PeerId>)
      ensures Coupled() && Initial(View()) && View().peers == peers && View().running == {}
    {
      free, inUse, held, this.peers, running := multiset{}, 0, map[], peers, {};
      contents, lost, arrived := map[], multiset{}, {};
    }

    method ClearBuffer(buffer: InboundBuffer)
      requires Coupled() && buffer in contents
      modifies this`contents, buffer`size, buffer`raddr, buffer`peer, buffer.data, buffer.packet,
               buffer.header
      ensures Coupled()
      ensures contents == old(contents)[buffer := Cleared(old(contents)[buffer])]
    {
      buffer.Clear();
      contents := contents[buffer := buffer.View()];
      OneBuffer(buffer);
    }

    method NewInboundBuffer() returns (buffer: InboundBuffer)
      requires Coupled()
      modifies this`contents
      ensures Coupled() && buffer !in old(contents) && contents == old(contents)[buffer := Made0()]
    {
      buffer := new InboundBuffer();
      contents := contents[buffer := buffer.View()];
      assert buffer !in old(contents);
      forall c | c in old(contents)
        ensures c.Shaped() && c.View() == contents[c] && c.header != buffer.header
        ensures c.data != buffer.data && c.data != buffer.packet && c.packet != buffer.packet && c.packet != buffer.data
      {
      }
    }

    method Handed(i: nat, buffer: InboundBuffer)
      requires View().At(Reader(i)) == []
      modifies this`free, this`inUse, this`held
      ensures View().At(Reader(i)) == [buffer]
      ensures View() ==
              old(View()).(store := old(View().store).(ledger := old(View().store.ledger).Get(Reader(i), buffer)))
    {
      inUse := inUse + 1;
      free := free - multiset{buffer};
      held := held[Reader(i) := [buffer]];
      assert [buffer] == old(View()).At(Reader(i)) + [buffer];
    }

    /** The pool hands out one of its buffers, or makes one if `pick` is null. */
    method GetInboundBuffer(i: nat, pick: InboundBuffer?) returns (buffer: InboundBuffer)
      requires Coupled() && (pick != null ==> pick in free && pick in contents) && View().At(Reader(i)) == []
      requires View().At(Sending(i)) == []
      modifies this`free, this`inUse, this`held, this`contents
      ensures Coupled() && View().At(Reader(i)) == [buffer] && buffer in contents
      ensures Enabled(old(View()), Event.Get(i, buffer)) && View() == Apply(old(View()), Event.Get(i, buffer))
    {
      if pick == null {
        buffer := NewInboundBuffer();
      } else {
        buffer := pick;
      }
      Handed(i, buffer);
    }

    method PutInboundBuffer(buffer: InboundBuffer, p: Place)
      requires Coupled() && Holds(View(), p) && View().At(p)[0] == buffer
      modifies this`free, this`inUse, this`held, this`contents
      modifies buffer`size, buffer`raddr, buffer`peer, buffer.data, buffer.packet, buffer.header
      ensures Coupled()
      ensures View() == PutFirst(old(View()), p, old(First(View(), p)))
    {
      ClearBuffer(buffer);
      held := held[p := held[p][1..]];
      free := free + multiset{buffer};
      inUse := inUse - 1;
    }

    /** p's goroutine sends its buffer on channel q, or q's goroutine receives it from channel p. */
    method PassOn(p: Place, q: Place)
      requires p != q && View().At(p) != []
      modifies this`held
      ensures View() == old(View()).(store := old(View().store).(ledger := old(View().store.ledger).Move(p, q)))
    {
      var queued := if q in held then held[q] else [];
      held := held[p := held[p][1..]][q := queued + [held[p][0]]];
    }

    /** p's goroutine forgets its buffer. */
    method Forget(p: Place)
      requires View().At(p) != []
      modifies this`held, this`lost
      ensures View() == old(View()).(store := old(View().store).(ledger := old(View().store.ledger).Lose(p)))
    {
      lost := lost + multiset{held[p][0]};
      held := held[p := held[p][1..]];
    }

    // -------------------------------------------------------------------------------------------------------
    // Filling a buffer
    // -------------------------------------------------------------------------------------------------------

    /** The socket copies as much of the datagram as fits. */
    method ReadFromUDP(buffer: InboundBuffer, datagram: seq<Byte>, from: Endpoint)
      requires Coupled() && buffer in contents
      modifies this`contents, buffer.Parts()
      ensures Coupled() && contents == old(contents)[buffer := Received(old(contents)[buffer], datagram, from)]
    {
      CopyInto(buffer.data, Cut(datagram));
      buffer.size := |Cut(datagram)|;
      buffer.raddr := Some(from);
      contents := contents[buffer := buffer.View()];
      OneBuffer(buffer);
    }

    /** Parse is given the whole buffer, not the received part. */
    method ParseHeader(buffer: InboundBuffer) returns (err: bool)
      requires Coupled() && buffer in contents
      modifies this`contents, buffer.header
      ensures Coupled() && contents == old(contents)[buffer := Parsed(old(contents)[buffer])]
      ensures err <==> !Accepted(old(contents)[buffer].bytes)
    {
      err := Parse(buffer.header, buffer.data);
      contents := contents[buffer := buffer.View()];
      OneBuffer(buffer);
    }

    method SetPeer(buffer: InboundBuffer, id: PeerId)
      requires Coupled() && buffer in contents
      modifies this`contents, buffer`peer
      ensures Coupled() && contents == old(contents)[buffer := old(contents)[buffer].(peer := Some(id))]
    {
      buffer.peer := Some(id);
      contents := contents[buffer := buffer.View()];
      OneBuffer(buffer);
    }

    /** Appends to the emptied slice, in place if it fits. */
    method AppendPlain(buffer: InboundBuffer, plain: seq<Byte>)
      requires Coupled() && buffer in contents
      modifies this`contents, buffer, buffer.packet
      ensures Coupled() && contents == old(contents)[buffer := Decrypted(old(contents)[buffer], plain)]
      ensures buffer.packet == old(buffer.packet) || fresh(buffer.packet)
    {
      buffer.Append(plain);
      contents := contents[buffer := buffer.View()];
      OneBuffer(buffer);
    }

    /** A failed decryption leaves a nil slice. */
    method NilPacket(buffer: InboundBuffer)
      requires Coupled() && buffer in contents
      modifies this`contents, buffer
      ensures Coupled() && contents == old(contents)[buffer := Nil(old(contents)[buffer])]
      ensures fresh(buffer.packet)
    {
      buffer.packet := new Byte[0];
      buffer.length := 0;
      contents := contents[buffer := buffer.View()];
      OneBuffer(buffer);
    }

    // -------------------------------------------------------------------------------------------------------
    // The goroutines
    // -------------------------------------------------------------------------------------------------------

    /** Peer.InboundPacket, for a buffer that reader i has read. */
    method InboundPacket(buffer: InboundBuffer, i: nat, id: PeerId)
      requires Coupled() && Holds(View(), Reader(i)) && View().At(Reader(i))[0] == buffer
      modifies this`free, this`inUse, this`held, this`contents, this`lost, buffer.Parts()
      ensures Coupled() && View() == Delivered(old(View()), Reader(i), id)
    {
      if id !in running {
        PutInboundBuffer(buffer, Reader(i));
      } else if Inbox(id) !in held || |held[Inbox(id)]| < INBOUND_SIZE {
        PassOn(Reader(i), Inbox(id));
      } else {
        Forget(Reader(i));
      }
      assert old(contents)[buffer := old(contents)[buffer]] == old(contents);
    }

    method OnData(buffer: InboundBuffer, i: nat, sender: PeerId)
      requires Coupled() && Holds(View(), Reader(i)) && View().At(Reader(i))[0] == buffer
      requires buffer.header.messageType == DATA && buffer.header.senderIndex == sender
      modifies this`free, this`inUse, this`held, this`contents, this`lost, buffer.Parts()
      ensures Coupled() && View() == Switched(old(View()), Reader(i))
    {
      if sender !in peers {
        PutInboundBuffer(buffer, Reader(i));
      } else {
        SetPeer(buffer, sender);
        InboundPacket(buffer, i, sender);
      }
    }

    /** Sends the buffer to the handshake loop of a running peer, or begins to wait for room. */
    method HandOver(buffer: InboundBuffer, i: nat, sender: PeerId)
      requires Coupled() && Holds(View(), Reader(i)) && View().At(Reader(i))[0] == buffer
      modifies this`held, this`lost
      ensures Coupled() && View() == HandedOver(old(View()), Reader(i), sender)
    {
      assert contents[buffer := contents[buffer]] == contents;
      if sender !in running {
        Forget(Reader(i));
      } else if Handshakes(sender) !in held || |held[Handshakes(sender)]| < HANDSHAKE_SIZE {
        PassOn(Reader(i), Handshakes(sender));
      } else {
        PassOn(Reader(i), Sending(i));
      }
    }

    method OnHandshake(buffer: InboundBuffer, i: nat, sender: PeerId)
      requires Coupled() && Holds(View(), Reader(i)) && View().At(Reader(i))[0] == buffer
      requires buffer.header.messageType == HANDSHAKE && buffer.header.senderIndex == sender
      modifies this`free, this`inUse, this`held, this`contents, this`lost, buffer.Parts()
      ensures Coupled() && View() == Switched(old(View()), Reader(i))
    {
      if sender !in peers {
        PutInboundBuffer(buffer, Reader(i));
      } else {
        SetPeer(buffer, sender);
        HandOver(buffer, i, sender);
      }
    }

    /** The switch on the type of a message whose header was accepted. */
    method OnMessage(buffer: InboundBuffer, i: nat)
      requires Coupled() && Holds(View(), Reader(i)) && View().At(Reader(i))[0] == buffer
      modifies this`free, this`inUse, this`held, this`contents, this`lost, buffer.Parts()
      ensures Coupled() && View() == Switched(old(View()), Reader(i))
    {
      var sender := buffer.header.senderIndex;
      if buffer.header.messageType == HANDSHAKE {
        OnHandshake(buffer, i, sender);
      } else if buffer.header.messageType == DATA {
        OnData(buffer, i, sender);
      } else if buffer.header.messageType == PUNCH {
        PutInboundBuffer(buffer, Reader(i));
      } else if buffer.header.messageType == DISCOVERY {
        PutInboundBuffer(buffer, Reader(i));
      } else {
        PutInboundBuffer(buffer, Reader(i));
      }
    }

    /** Node.OnUDPPacket; it may end up waiting for room in the peer's handshake channel. */
    method OnUDPPacket(buffer: InboundBuffer, i: nat)
      requires Coupled() && Enabled(View(), Event<InboundBuffer>.Dispatch(i)) && View().At(Reader(i))[0] == buffer
      modifies this`free, this`inUse, this`held, this`contents, this`lost, buffer.Parts()
      ensures Coupled() && View() == Apply(old(View()), Event<InboundBuffer>.Dispatch(i))
    {
      ghost var parsed := View().store.Fill(Reader(i), Parsed(contents[buffer]));
      var err := ParseHeader(buffer);
      assert View().store == parsed;
      if err {
        PutInboundBuffer(buffer, Reader(i));
      } else {
        OnMessage(buffer, i);
      }
    }

    /** The handshake channel has room again for the buffer a reader waits with. */
    method ResumeSend(i: nat)
      requires Coupled() && Enabled(View(), Event<InboundBuffer>.Resume(i))
      modifies this`held
      ensures Coupled() && View() == Apply(old(View()), Event<InboundBuffer>.Resume(i))
    {
      var buffer := held[Sending(i)][0];
      assert buffer.peer == contents[buffer].peer;
      assert contents[buffer := contents[buffer]] == contents;
      PassOn(Sending(i), Handshakes(buffer.peer.value));
    }

    /** What Node.ReadUDPPackets does with the buffer it got: None is a failed read. */
    method ReadUDPPacket(buffer: InboundBuffer, i: nat, packet: Option<(seq<Byte>, Endpoint)>)
      requires Coupled() && Enabled(View(), Event<InboundBuffer>.ReadFails(i)) && View().At(Reader(i))[0] == buffer
      modifies this`free, this`inUse, this`held, this`contents, this`arrived, buffer.Parts()
      ensures Coupled()
      ensures View() == Apply(old(View()), match packet
                                           case None => Event<InboundBuffer>.ReadFails(i)
                                           case Some(p) => Event<InboundBuffer>.Read(i, p.0, p.1))
    {
      match packet
      case None =>
        PutInboundBuffer(buffer, Reader(i));
      case Some(p) =>
        arrived := arrived + {(Cut(p.0), p.1)};
        ReadFromUDP(buffer, p.0, p.1);
    }

    /** Peer.Inbound receives from its channel. */
    method TakeInbound(id: PeerId) returns (buffer: InboundBuffer)
      requires Coupled() && Enabled(View(), Event<InboundBuffer>.TakeData(id))
      modifies this`held
      ensures Coupled() && View().At(DataLoop(id)) == [buffer] && buffer == old(View()).At(Inbox(id))[0]
      ensures View() == Apply(old(View()), Event<InboundBuffer>.TakeData(id))
    {
      buffer := held[Inbox(id)][0];
      assert contents[buffer := contents[buffer]] == contents;
      PassOn(Inbox(id), DataLoop(id));
    }

    /** The cipher sees the counter of the header and the bytes behind the header; what is not empty is written to
        the tunnel. */
    method Decrypt(buffer: InboundBuffer, decrypt: (nat, seq<Byte>) -> Option<seq<Byte>>)
      returns (err: bool, written: Option<seq<Byte>>)
      requires Coupled() && buffer in contents && HEADER_LEN <= buffer.size <= BUFFER_SIZE
      modifies this`contents, buffer, buffer.packet
      ensures Coupled() && (buffer.packet == old(buffer.packet) || fresh(buffer.packet))
      ensures var c := old(contents)[buffer];
              var plain := Plain(c, decrypt);
              && err == plain.None?
              && written == (if plain.Some? && plain.value != [] then plain else None)
              && contents == old(contents)[buffer := AfterDecrypt(c, plain)]
    {
      var box := buffer.data[HEADER_LEN..buffer.size];
      assert box == contents[buffer].bytes[HEADER_LEN..buffer.size];
      var plain := decrypt(buffer.header.counter, box);
      if plain.None? {
        NilPacket(buffer);
        return true, None;
      }
      AppendPlain(buffer, plain.value);
      assert buffer.packet[..] == contents[buffer].memory;
      assert buffer.packet[..buffer.length] == plain.value;
      err, written := false, None;
      if buffer.length > 0 {
        written := Some(buffer.packet[..buffer.length]);
      }
    }

    /** Peer.Inbound has the read lock, decrypts and returns the buffer. */
    method Open(buffer: InboundBuffer, id: PeerId, decrypt: (nat, seq<Byte>) -> Option<seq<Byte>>)
      returns (written: Option<seq<Byte>>, from: Option<Endpoint>)
      requires Coupled() && View().At(DataLoop(id)) == [buffer] && buffer in contents
      requires HEADER_LEN <= buffer.size <= BUFFER_SIZE
      modifies this`free, this`inUse, this`held, this`contents, buffer.Parts()
      ensures Coupled()
      ensures var c := old(contents)[buffer];
              var plain := Plain(c, decrypt);
              && View() == Used(old(View()), DataLoop(id), AfterDecrypt(c, plain))
              && (written == if plain.Some? && plain.value != [] then plain else None)
              && from == if plain.Some? then c.raddr else None
    {
      var err;
      err, written := Decrypt(buffer, decrypt);
      assert View() == Filling(old(View()), DataLoop(id), contents[buffer]);
      from := if err then None else buffer.raddr;
      PutInboundBuffer(buffer, DataLoop(id));
    }

    /** A whole round of Peer.Inbound: in every state a run can reach, the bounds of the slice are in range. */
    method InboundRound(id: PeerId, buffer: InboundBuffer, decrypt: (nat, seq<Byte>) -> Option<seq<Byte>>)
      returns (written: Option<seq<Byte>>, from: Option<Endpoint>)
      requires Coupled() && Holds(View(), Inbox(id)) && View().At(DataLoop(id)) == []
      requires View().At(Inbox(id))[0] == buffer && Inv(View())
      modifies this`free, this`inUse, this`held, this`contents, buffer.Parts()
      ensures Coupled() && HEADER_LEN <= old(contents)[buffer].size <= BUFFER_SIZE
      ensures var c := old(contents)[buffer];
              var plain := decrypt(c.header.counter, c.bytes[HEADER_LEN..c.size]);
              && View() == Used(Take(old(View()), Inbox(id), DataLoop(id)), DataLoop(id), AfterDecrypt(c, plain))
              && (written == if plain.Some? && plain.value != [] then plain else None)
              && from == if plain.Some? then c.raddr else None
    {
      InRange(View(), Inbox(id));
      var taken := TakeInbound(id);
      written, from := Open(taken, id, decrypt);
    }

    method TakeHandshake(id: PeerId) returns (buffer: InboundBuffer)
      requires Coupled() && Enabled(View(), Event<InboundBuffer>.TakeHandshake(id))
      modifies this`held
      ensures Coupled() && View().At(HandshakeLoop(id)) == [buffer] && buffer in contents
      ensures View() == Apply(old(View()), Event<InboundBuffer>.TakeHandshake(id))
    {
      buffer := held[Handshakes(id)][0];
      assert contents[buffer := contents[buffer]] == contents;
      PassOn(Handshakes(id), HandshakeLoop(id));
    }

    /** What Peer.handshakeP2 takes from the buffer before it returns it. */
    method ReadHandshake(buffer: InboundBuffer, id: PeerId)
      returns (counter: Uint64, body: seq<Byte>, from: Option<Endpoint>)
      requires Coupled() && View().At(HandshakeLoop(id)) == [buffer] && buffer in contents
      requires HEADER_LEN <= buffer.size <= BUFFER_SIZE
      modifies this`free, this`inUse, this`held, this`contents, buffer.Parts()
      ensures Coupled()
      ensures Enabled(old(View()), Event<InboundBuffer>.HandshakeRead(id))
      ensures View() == Apply(old(View()), Event<InboundBuffer>.HandshakeRead(id))
      ensures var c := old(contents)[buffer];
              counter == c.header.counter && body == c.bytes[HEADER_LEN..c.size] && from == c.raddr
    {
      counter := buffer.header.counter;
      body := buffer.data[HEADER_LEN..buffer.size];
      from := buffer.raddr;
      assert body == contents[buffer].bytes[HEADER_LEN..buffer.size];
      PutInboundBuffer(buffer, HandshakeLoop(id));
    }

    /** The memory of the buffers is among these objects. */
    ghost predicate Within(memory: set<object>)
      reads this`contents, contents.Keys
    {
      forall b | b in contents :: b in memory && b.data in memory && b.packet in memory && b.header in memory
    }

    method ReturnOldest(q: Place, ghost memory: set<object>)
      requires Coupled() && Within(memory) && this !in memory && Holds(View(), q)
      modifies this`free, this`inUse, this`held, this`contents, memory
      ensures Coupled() && Within(memory)
      ensures View() == PutFirst(old(View()), q, First(old(View()), q))
    {
      PutInboundBuffer(held[q][0], q);
    }

    /** Peer.flushInboundQueue and Peer.flushHandshakeQueue. */
    method Flush(q: Place, ghost memory: set<object>)
      requires Coupled() && Within(memory) && this !in memory && forall b | b in View().At(q) :: b in contents
      modifies this`free, this`inUse, this`held, this`contents, memory
      ensures Coupled() && View() == Flushed(old(View()), q)
    {
      while q in held && held[q] != []
        invariant Coupled() && Within(memory)
        invariant forall b | b in View().At(q) :: b in contents
        invariant Flushed(View(), q) == Flushed(old(View()), q)
        decreases |View().At(q)|
      {
        ReturnOldest(q, memory);
      }
    }
  }
}
