/** The handlers of a remote peer as they update its fields.  Every handler is shown to do exactly what PeerMachine
    says of it, on every state a started peer can be in; the calls to Lock and Unlock show that no handler takes
    the pending lock twice or releases it while it is free. */
module PeerHandlers {
  import opened Options
  import opened Symbolic
  import opened PeerMachine
  import M = PeerMachine

  datatype Noise = Noise(hs: HandshakeState, rx: Option<Cipher>, tx: Option<Cipher>, state: nat, initiator: bool)

  /** A timer is true while it is armed. */
  datatype Timers = Timers(handshakeSent: bool, receivedPacket: bool, keepalive: bool)

  class Peer {
    var noise: Noise
    var timers: Timers
    var handshakeRetries: nat
    // pendingLock, held for writing
    var locked: bool
    var running: bool
    var inTransport: bool
    var raddr: Endpoint
    // channels
    var handshakes: seq<HandshakeBuffer>
    var inbound: seq<DataBuffer>
    var outbound: seq<Payload>
    // in the hands of the data loops
    var opening: Option<DataBuffer>
    var sending: Option<Payload>

    ghost function View(): M.Peer
      reads this
    {
      M.Peer(noise.state, noise.initiator, noise.hs, noise.tx, noise.rx, locked, running, inTransport,
             handshakeRetries, timers.handshakeSent, timers.receivedPacket, timers.keepalive, raddr,
             handshakes, inbound, outbound, opening, sending)
    }

    ghost predicate Valid()
      reads this
    {
      M.Valid(View())
    }

    constructor (raddr: Endpoint)
      ensures Valid() && View() == M.NewPeer(raddr)
    {
      noise := Noise(NoHandshake, None, None, 0, false);
      timers := Timers(false, false, false);
      locked, running, inTransport, handshakeRetries := false, false, false, 0;
      this.raddr := raddr;
      handshakes, inbound, outbound := [], [], [];
      opening, sending := None, None;
    }

    method LockPending()
      requires !locked
      modifies this`locked
      ensures locked
    {
      locked := true;
    }

    method UnlockPending()
      requires locked
      modifies this`locked
      ensures !locked
    {
      locked := false;
    }

    method Start() returns (alreadyRunning: bool)
      requires Valid()
      modifies this
      ensures Valid() && running && alreadyRunning == old(running)
      ensures M.StartPeer(old(View())) == M.Ok(View(), None, None)
    {
      if running {
        return true;
      }
      LockPending();
      running := true;
      inTransport := false;
      return false;
    }

    method FlushHandshakeQueue()
      modifies this`handshakes
      ensures handshakes == []
    {
      while handshakes != []
        decreases |handshakes|
      {
        handshakes := handshakes[1..];
      }
    }

    method FlushOutboundQueue()
      modifies this`outbound
      ensures outbound == []
    {
      while outbound != []
        decreases |outbound|
      {
        outbound := outbound[1..];
      }
    }

    method FlushInboundQueue()
      modifies this`inbound
      ensures inbound == []
    {
      while inbound != []
        decreases |inbound|
      {
        inbound := inbound[1..];
      }
    }

    method FlushQueues()
      modifies this`handshakes, this`outbound, this`inbound
      ensures handshakes == [] && outbound == [] && inbound == []
    {
      FlushHandshakeQueue();
      FlushOutboundQueue();
      FlushInboundQueue();
    }

    method ResetState()
      modifies this
      ensures View() == M.Reset(old(View()))
    {
      var wasRunning := running;
      running := false;
      handshakeRetries := 0;
      timers := timers.(receivedPacket := false);
      timers := timers.(keepalive := false);
      FlushQueues();
      noise := Noise(NoHandshake, None, None, 0, false);
      inTransport := false;
      if wasRunning {
        running := true;
      }
    }

    method InitHandshake(initiator: bool, e: Ephemeral)
      modifies this`noise
      ensures noise == old(noise).(initiator := initiator, hs := if initiator then Initiating(e) else Responded)
    {
      noise := noise.(initiator := initiator);
      noise := noise.(hs := if initiator then Initiating(e) else Responded);
    }

    method HandshakeP1() returns (sent: Option<Datagram>)
      requires noise.hs.Initiating?
      modifies this`noise
      ensures noise == old(noise).(state := 1)
      ensures sent == Some(Datagram(raddr, Handshake(0, Init(noise.hs.e))))
    {
      noise := noise.(state := 1);
      sent := Some(Datagram(raddr, Handshake(0, Init(noise.hs.e))));
    }

    method TrySendHandshake(retry: bool, e: Ephemeral) returns (sent: Option<Datagram>)
      modifies this
      ensures M.TrySendHandshake(old(View()), retry, e) == M.Ok(View(), sent, None)
    {
      handshakeRetries := handshakeRetries + 1;
      if retry {
        var attempts := handshakeRetries;
        if attempts > HANDSHAKE_RETRIES {
          timers := timers.(handshakeSent := false);
          ResetState();
          return None;
        }
      }
      InitHandshake(true, e);
      sent := HandshakeP1();
      timers := timers.(handshakeSent := true);
    }

    method UpdateEndpoint(addr: Endpoint)
      modifies this`raddr
      ensures raddr == addr
    {
      if raddr != addr {
        raddr := addr;
      }
    }

    method HandshakeP2(buffer: HandshakeBuffer, er: Ephemeral) returns (err: bool, sent: Option<Datagram>)
      modifies this
      ensures err <==> !Readable(old(View()), buffer)
      ensures !err ==> View() == M.HandshakeP2(old(View()), buffer, er) && sent == Answer(old(View()), buffer, er)
    {
      sent := None;
      if noise.initiator {
        // ReadMessage on a missing object, or of anything but the answer to our own ephemeral
        if !(noise.hs.Initiating? && buffer.body.Resp? && buffer.body.ei == noise.hs.e) {
          return true, None;
        }
        var ei, r := buffer.body.ei, buffer.body.er;
        noise := noise.(tx := Some(Cipher(Key(ei, r, ToResponder), 0)), rx := Some(Cipher(Key(ei, r, ToInitiator), 0)));
        raddr := buffer.from;
        noise := noise.(hs := NoHandshake);
      } else {
        InitHandshake(false, er);
        if !buffer.body.Init? {
          return true, None;
        }
        UpdateEndpoint(buffer.from);
        var ei := buffer.body.ei;
        noise := noise.(rx := Some(Cipher(Key(ei, er, ToResponder), 0)));
        noise := noise.(tx := Some(Cipher(Key(ei, er, ToInitiator), 0)));
        sent := Some(Datagram(raddr, Handshake(1, Resp(ei, er))));
      }
      err := false;
    }

    /** What the handshake loop does in each state when the handshake is complete. */
    method EnterTransport()
      requires locked
      modifies this
      ensures View() == Established(old(View()))
    {
      noise := noise.(state := 2);
      inTransport := true;
      UnlockPending();
      timers := timers.(handshakeSent := false);
      handshakeRetries := 0;
      timers := timers.(keepalive := true);
    }

    /** The idle peer answers a first handshake message; the lock it has held since it was started, or since it was
        reset, is released. */
    method HandshakeIdle(buffer: HandshakeBuffer, er: Ephemeral) returns (crashed: bool, sent: Option<Datagram>)
      requires Valid() && running && noise.state == 0
      modifies this
      ensures crashed <==> !Acceptable(old(View()), buffer)
      ensures !crashed ==> View() == Established(M.HandshakeP2(old(View()), buffer, er))
      ensures !crashed ==> sent == Answer(old(View()), buffer, er)
    {
      if buffer.counter != 0 {
        return true, None;
      }
      crashed, sent := HandshakeP2(buffer, er);
      if crashed {
        return;
      }
      EnterTransport();
    }

    /** The answer to our own initiation. */
    method HandshakeInitiated(buffer: HandshakeBuffer, er: Ephemeral) returns (crashed: bool, sent: Option<Datagram>)
      requires Valid() && noise.state == 1
      modifies this
      ensures crashed <==> !Acceptable(old(View()), buffer)
      ensures !crashed ==> View() == Established(M.HandshakeP2(old(View()), buffer, er))
      ensures !crashed ==> sent == Answer(old(View()), buffer, er)
    {
      if buffer.counter != 1 {
        return true, None;
      }
      crashed, sent := HandshakeP2(buffer, er);
      if crashed {
        return;
      }
      EnterTransport();
    }

    /** A new initiation while a session is established. */
    method HandshakeAgain(buffer: HandshakeBuffer, er: Ephemeral) returns (crashed: bool, sent: Option<Datagram>)
      requires Valid() && noise.state == 2
      modifies this
      ensures crashed <==> !Acceptable(old(View()), buffer)
      ensures !crashed ==> View() == Established(M.HandshakeP2(old(View()), buffer, er)).(receiveTimer := true)
      ensures !crashed ==> sent == Answer(old(View()), buffer, er)
    {
      LockPending();
      UpdateEndpoint(buffer.from);
      crashed, sent := HandshakeP2(buffer, er);
      if crashed {
        return;
      }
      EnterTransport();
      timers := timers.(receivedPacket := true);
    }

    /** One iteration of the handshake loop. */
    method HandshakeLoop(er: Ephemeral) returns (crashed: bool, sent: Option<Datagram>)
      requires Valid() && handshakes != []
      modifies this
      ensures crashed <==> !Acceptable(old(View()), old(handshakes[0]))
      ensures !crashed ==> Valid() && M.HandshakeStep(old(View()), er) == M.Ok(View(), sent, None)
    {
      var buffer := handshakes[0];
      handshakes := handshakes[1..];
      match noise.state {
        case 0 =>
          crashed, sent := HandshakeIdle(buffer, er);
        case 1 =>
          crashed, sent := HandshakeInitiated(buffer, er);
        case 2 =>
          crashed, sent := HandshakeAgain(buffer, er);
        case _ =>
          assert false;
      }
    }

    /** The inbound loop receives from its channel. */
    method TakeInbound()
      requires Valid() && running && inbound != [] && opening.None?
      modifies this
      ensures Valid() && M.TakeInboundStep(old(View())) == M.Ok(View(), None, None)
    {
      opening := Some(inbound[0]);
      inbound := inbound[1..];
    }

    /** The rest of the iteration, once the read lock is granted. */
    method OpenInbound() returns (written: Option<Payload>)
      requires Valid() && opening.Some? && !locked
      modifies this
      ensures Valid() && M.OpenStep(old(View())) == M.Ok(View(), None, written)
    {
      var buffer := opening.value;
      opening := None;
      written := None;
      noise := noise.(rx := Some(noise.rx.value.SetNonce(buffer.counter)));
      var packet := noise.rx.value.Decrypt(buffer.box);
      if packet.None? {
        return;
      }
      noise := noise.(rx := Some(noise.rx.value.Next()));
      timers := timers.(receivedPacket := true);
      if |packet.value| > 0 {
        written := packet;
      }
      UpdateEndpoint(buffer.from);
    }

    /** The outbound loop receives from its channel. */
    method TakeOutbound()
      requires Valid() && running && outbound != [] && sending.None?
      modifies this
      ensures Valid() && M.TakeOutboundStep(old(View())) == M.Ok(View(), None, None)
    {
      sending := Some(outbound[0]);
      outbound := outbound[1..];
    }

    /** The rest of the iteration, once the read lock is granted. */
    method SendOutbound() returns (sent: Option<Datagram>)
      requires Valid() && sending.Some? && !locked
      modifies this
      ensures Valid() && M.SendStep(old(View())) == M.Ok(View(), sent, None)
    {
      var packet := sending.value;
      sending := None;
      var counter := noise.tx.value.nonce;
      var box := noise.tx.value.Encrypt(packet);
      if box.None? {
        return None;
      }
      noise := noise.(tx := Some(noise.tx.value.Next()));
      timers := timers.(keepalive := true);
      sent := Some(Datagram(raddr, Data(counter, box.value)));
    }

    method InboundPacket(buffer: DataBuffer)
      requires Valid()
      modifies this
      ensures Valid() && M.InboundPacket(old(View()), buffer) == M.Ok(View(), None, None)
    {
      if !running {
        return;
      }
      if |inbound| < INBOUND_SIZE {
        inbound := inbound + [buffer];
      }
    }

    /** What the dispatch does with a handshake message; the send on the channel waits while there is no room. */
    method HandshakePacket(buffer: HandshakeBuffer) returns (waits: bool)
      requires Valid()
      modifies this
      ensures Valid() && (waits ==> View() == old(View()))
      ensures M.ReceiveHandshake(old(View()), buffer) == if waits then M.Blocked else M.Ok(View(), None, None)
    {
      if !running {
        return false;
      }
      waits := |handshakes| >= HANDSHAKE_SIZE;
      if !waits {
        handshakes := handshakes + [buffer];
      }
    }

    method OutboundPacket(packet: Payload, e: Ephemeral) returns (sent: Option<Datagram>)
      requires Valid()
      modifies this
      ensures Valid() && M.OutboundPacket(old(View()), packet, e) == M.Ok(View(), sent, None)
    {
      sent := None;
      if !running {
        return;
      }
      if |outbound| < OUTBOUND_SIZE {
        outbound := outbound + [packet];
      }
      if !inTransport && noise.state == 0 {
        sent := TrySendHandshake(false, e);
      }
    }

    /** The callback of the handshake timer. */
    method HandshakeTimeout(e: Ephemeral) returns (sent: Option<Datagram>)
      requires Valid() && timers.handshakeSent
      modifies this
      ensures Valid() && M.HandshakeTimedOut(old(View()), e) == M.Ok(View(), sent, None)
    {
      timers := timers.(handshakeSent := false);
      sent := None;
      if noise.state > 0 {
        inTransport := false;
        if noise.initiator {
          sent := TrySendHandshake(true, e);
        }
      }
    }

    /** The callback of the keepalive timer. */
    method TXTimeout()
      requires Valid() && timers.keepalive
      modifies this
      ensures Valid() && M.KeepaliveTimedOut(old(View())) == M.Ok(View(), None, None)
    {
      timers := timers.(keepalive := false);
      if |outbound| == 0 {
        outbound := outbound + [[]];
      }
    }

    /** The callback of the receive timer. */
    method RXTimeout(e: Ephemeral) returns (sent: Option<Datagram>)
      requires Valid() && timers.receivedPacket
      modifies this
      ensures Valid() && M.ReceiveTimedOut(old(View()), e) == M.Ok(View(), sent, None)
    {
      timers := timers.(receivedPacket := false);
      sent := None;
      if !inTransport {
        return;
      }
      timers := timers.(keepalive := false);
      timers := timers.(receivedPacket := false);
      LockPending();
      noise := noise.(state := 0);
      if !noise.initiator {
        timers := timers.(receivedPacket := false);
        timers := timers.(handshakeSent := false);
        ResetState();
        return;
      }
      sent := TrySendHandshake(true, e);
    }
  }
}
