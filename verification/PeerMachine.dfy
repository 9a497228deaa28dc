/** What one handler of a remote peer does to it, as a function on values.

    Each handler or timer callback is one atomic step, and so is each iteration of the handshake loop.  An iteration
    of a data loop is two: it takes a packet from its channel, whatever the lock, and holds it until it is granted
    the lock.  A step is `Blocked` when the channel it reads is empty, the timer is not armed, or its lock or channel
    is unavailable; it is a `Crash` when the code panics or dereferences nil. */
module PeerMachine {
  import opened Options
  import opened Symbolic

  const HANDSHAKE_RETRIES: nat := 10
  const INBOUND_SIZE: nat := 1024
  const OUTBOUND_SIZE: nat := 1024
  const HANDSHAKE_SIZE: nat := 3

  type Endpoint = nat

  /** What travels in a datagram; `counter` is the header field. */
  datatype Message =
    | Handshake(counter: nat, body: Body)
    | Data(counter: nat, box: Sealed)

  datatype Datagram = Datagram(to: Endpoint, message: Message)

  /** Buffers waiting in the channels of a peer. */
  datatype HandshakeBuffer = HandshakeBuffer(counter: nat, body: Body, from: Endpoint)
  datatype DataBuffer = DataBuffer(counter: nat, box: Sealed, from: Endpoint)

  /** The handshake object: absent, waiting for the answer to ephemeral `e`, or left over from a responder. */
  datatype HandshakeState = NoHandshake | Initiating(e: Ephemeral) | Responded

  datatype Peer = Peer(
    state: nat,
    initiator: bool,
    hs: HandshakeState,
    tx: Option<Cipher>,
    rx: Option<Cipher>,
    locked: bool,            // pendingLock is write-held
    running: bool,
    inTransport: bool,
    retries: nat,
    handshakeTimer: bool,    // armed
    receiveTimer: bool,
    keepaliveTimer: bool,
    raddr: Endpoint,
    handshakes: seq<HandshakeBuffer>,
    inbound: seq<DataBuffer>,
    outbound: seq<Payload>,
    opening: Option<DataBuffer>,   // in the hands of the inbound loop
    sending: Option<Payload>)      // in the hands of the outbound loop

  datatype Outcome =
    | Crash
    | Blocked
    | Ok(peer: Peer, sent: Option<Datagram>, written: Option<Payload>)

  datatype Event =
    | Start
    | FromTunnel(packet: Payload)
    | HandshakeArrives(h: HandshakeBuffer)
    | DataArrives(d: DataBuffer)
    | HandshakeLoop
    | TakeInbound
    | OpenInbound
    | TakeOutbound
    | SendOutbound
    | HandshakeTimeout
    | KeepaliveTimeout
    | ReceiveTimeout

  function NewPeer(raddr: Endpoint): Peer {
    Peer(0, false, NoHandshake, None, None, false, false, false, 0, false, false, false, raddr, [], [], [], None, None)
  }

  function StartPeer(p: Peer): Outcome {
    if p.running then Ok(p, None, None)
    else if p.locked then Blocked
    else Ok(p.(locked := true, running := true, inTransport := false), None, None)
  }

  /** Everything a reset clears.  The write lock, the handshake timer and what the data loops hold are not touched. */
  function Reset(p: Peer): Peer {
    p.(retries := 0, receiveTimer := false, keepaliveTimer := false,
       handshakes := [], outbound := [], inbound := [],
       hs := NoHandshake, tx := None, rx := None, initiator := false, state := 0, inTransport := false)
  }

  function SendInit(p: Peer, e: Ephemeral): Outcome {
    Ok(p.(initiator := true, hs := Initiating(e), state := 1, handshakeTimer := true),
       Some(Datagram(p.raddr, Handshake(0, Init(e)))), None)
  }

  function TrySendHandshake(p: Peer, retry: bool, e: Ephemeral): Outcome {
    var q := p.(retries := p.retries + 1);
    if retry && q.retries > HANDSHAKE_RETRIES then
      Ok(Reset(q.(handshakeTimer := false)), None, None)
    else
      SendInit(q, e)
  }

  function OutboundPacket(p: Peer, packet: Payload, e: Ephemeral): Outcome {
    if !p.running then Ok(p, None, None)
    else
      var q := if |p.outbound| < OUTBOUND_SIZE then p.(outbound := p.outbound + [packet]) else p;
      if !q.inTransport && q.state == 0 then TrySendHandshake(q, false, e) else Ok(q, None, None)
  }

  function ReceiveHandshake(p: Peer, h: HandshakeBuffer): Outcome {
    if !p.running then Ok(p, None, None)
    else if |p.handshakes| >= HANDSHAKE_SIZE then Blocked
    else Ok(p.(handshakes := p.handshakes + [h]), None, None)
  }

  function InboundPacket(p: Peer, d: DataBuffer): Outcome {
    if !p.running || |p.inbound| >= INBOUND_SIZE then Ok(p, None, None)
    else Ok(p.(inbound := p.inbound + [d]), None, None)
  }

  /** The handshake messages a peer can read: an initiator the answer to its own ephemeral, while it still has the
      handshake object; a responder any initiation. */
  predicate Readable(p: Peer, h: HandshakeBuffer) {
    if p.initiator then p.hs.Initiating? && h.body.Resp? && h.body.ei == p.hs.e else h.body.Init?
  }

  /** The ephemerals of the session that reading `h` agrees on; a responder contributes `er`. */
  function SessionOf(p: Peer, h: HandshakeBuffer, er: Ephemeral): (Ephemeral, Ephemeral)
    requires Readable(p, h)
  {
    if p.initiator then (h.body.ei, h.body.er) else (h.body.ei, er)
  }

  /** The second half of a handshake: the ciphers of the session, each starting at nonce zero. */
  function HandshakeP2(p: Peer, h: HandshakeBuffer, er: Ephemeral): Peer
    requires Readable(p, h)
  {
    var (ei, er) := SessionOf(p, h, er);
    var toResponder, toInitiator := Cipher(Key(ei, er, ToResponder), 0), Cipher(Key(ei, er, ToInitiator), 0);
    p.(tx := Some(if p.initiator then toResponder else toInitiator),
       rx := Some(if p.initiator then toInitiator else toResponder),
       raddr := h.from, hs := if p.initiator then NoHandshake else Responded)
  }

  /** Only a responder has something left to say. */
  function Answer(p: Peer, h: HandshakeBuffer, er: Ephemeral): Option<Datagram>
    requires Readable(p, h)
  {
    if p.initiator then None else Some(Datagram(h.from, Handshake(1, Resp(h.body.ei, er))))
  }

  function Established(p: Peer): Peer {
    p.(state := 2, inTransport := true, locked := false, retries := 0, handshakeTimer := false,
       keepaliveTimer := true)
  }

  /** The handshake messages that the current state of a peer can digest. */
  predicate Acceptable(p: Peer, h: HandshakeBuffer) {
    && p.state <= 2
    && (p.state < 2 ==> h.counter == p.state)
    && Readable(p, h)
  }

  /** One handshake message.  In states 0 and 1 the write lock is held already and is given up here; in state 2 it is
      taken and given up. */
  function HandshakeStep(p: Peer, er: Ephemeral): Outcome {
    if p.handshakes == [] || (p.state == 2 && p.locked) then Blocked
    else
      var h := p.handshakes[0];
      if !Acceptable(p, h) || (p.state != 2 && !p.locked) then Crash
      else
        var q := Established(HandshakeP2(p, h, er)).(handshakes := p.handshakes[1..]);
        Ok(if p.state == 2 then q.(receiveTimer := true) else q, Answer(p, h, er), None)
  }

  function HandshakeTimedOut(p: Peer, e: Ephemeral): Outcome {
    var q := p.(handshakeTimer := false);
    if !p.handshakeTimer then Blocked
    else if q.state == 0 then Ok(q, None, None)
    else if q.initiator then TrySendHandshake(q.(inTransport := false), true, e)
    else Ok(q.(inTransport := false), None, None)
  }

  function KeepaliveTimedOut(p: Peer): Outcome {
    var q := p.(keepaliveTimer := false);
    if !p.keepaliveTimer then Blocked
    else if q.outbound == [] then Ok(q.(outbound := [[]]), None, None)
    else Ok(q, None, None)
  }

  function ReceiveTimedOut(p: Peer, e: Ephemeral): Outcome {
    var q := p.(receiveTimer := false);
    if !p.receiveTimer then Blocked
    else if !q.inTransport then Ok(q, None, None)
    else if q.locked then Blocked
    else
      var r := q.(keepaliveTimer := false, locked := true, state := 0);
      if r.initiator then TrySendHandshake(r, true, e)
      else Ok(Reset(r.(handshakeTimer := false)), None, None)
  }

  function TakeInboundStep(p: Peer): Outcome {
    if !p.running || p.inbound == [] || p.opening.Some? then Blocked
    else Ok(p.(opening := Some(p.inbound[0]), inbound := p.inbound[1..]), None, None)
  }

  /** The rest of an iteration of the inbound loop, once the read lock is granted. */
  function OpenStep(p: Peer): Outcome {
    if p.opening.None? || p.locked then Blocked
    else if p.rx.None? then Crash
    else
      var d := p.opening.value;
      var c := p.rx.value.SetNonce(d.counter);
      var q := p.(opening := None);
      match c.Decrypt(d.box)
      case None => Ok(q.(rx := Some(c)), None, None)
      case Some(plain) =>
        Ok(q.(rx := Some(c.Next()), receiveTimer := true, raddr := d.from), None,
           if plain == [] then None else Some(plain))
  }

  function TakeOutboundStep(p: Peer): Outcome {
    if !p.running || p.outbound == [] || p.sending.Some? then Blocked
    else Ok(p.(sending := Some(p.outbound[0]), outbound := p.outbound[1..]), None, None)
  }

  /** The rest of an iteration of the outbound loop, once the read lock is granted. */
  function SendStep(p: Peer): Outcome {
    if p.sending.None? || p.locked then Blocked
    else if p.tx.None? then Crash
    else
      var c := p.tx.value;
      var q := p.(sending := None);
      match c.Encrypt(p.sending.value)
      case None => Ok(q, None, None)
      case Some(box) =>
        Ok(q.(tx := Some(c.Next()), keepaliveTimer := true), Some(Datagram(p.raddr, Data(c.nonce, box))), None)
  }

  /** One step of a peer; `eph` is the ephemeral drawn if the step needs one. */
  function Step(p: Peer, event: Event, eph: Ephemeral): Outcome {
    match event
    case Start => StartPeer(p)
    case FromTunnel(packet) => OutboundPacket(p, packet, eph)
    case HandshakeArrives(h) => ReceiveHandshake(p, h)
    case DataArrives(d) => InboundPacket(p, d)
    case HandshakeLoop => HandshakeStep(p, eph)
    case TakeInbound => TakeInboundStep(p)
    case OpenInbound => OpenStep(p)
    case TakeOutbound => TakeOutboundStep(p)
    case SendOutbound => SendStep(p)
    case HandshakeTimeout => HandshakeTimedOut(p, eph)
    case KeepaliveTimeout => KeepaliveTimedOut(p)
    case ReceiveTimeout => ReceiveTimedOut(p, eph)
  }

  // ---------------------------------------------------------------------------------------------------------
  // What holds of a peer in every state its handlers can bring it to.
  // ---------------------------------------------------------------------------------------------------------

  /** The lock is write-held exactly outside an established session, and inside one both ciphers exist. */
  predicate LockCoupling(p: Peer) {
    && (p.locked <==> p.state != 2)
    && (!p.locked ==> p.tx.Some? && p.rx.Some?)
  }

  predicate RoleCoherence(p: Peer) {
    && p.state <= 2
    && (p.state == 0 ==> !p.initiator && !p.inTransport && p.hs == NoHandshake && p.tx.None? && p.rx.None?)
    && (p.state == 1 ==> p.initiator && p.hs.Initiating?)
    && (p.state == 2 ==> p.inTransport && p.hs == if p.initiator then NoHandshake else Responded)
  }

  predicate TimerDiscipline(p: Peer) {
    && (p.handshakeTimer <==> p.state == 1)
    && (p.keepaliveTimer || p.receiveTimer ==> p.state == 2)
    && (p.state == 1 ==> 1 <= p.retries <= HANDSHAKE_RETRIES)
    && (p.state != 1 ==> p.retries == 0)
  }

  /** An established session always has a next packet to send coming: one is queued or in hand, or the keepalive
      timer will queue one, unless the nonces of the session are used up. */
  predicate KeepaliveAlive(p: Peer) {
    p.state == 2 && p.tx.Some? ==>
      p.keepaliveTimer || p.outbound != [] || p.sending.Some? || p.tx.value.nonce > MAX_NONCE
  }

  predicate Bounded(p: Peer) {
    |p.handshakes| <= HANDSHAKE_SIZE && |p.inbound| <= INBOUND_SIZE && |p.outbound| <= OUTBOUND_SIZE
  }

  /** A peer is as new until it is started; afterwards all of the above holds. */
  predicate Valid(p: Peer) {
    if p.running then LockCoupling(p) && RoleCoherence(p) && TimerDiscipline(p) && KeepaliveAlive(p) && Bounded(p)
    else p == NewPeer(p.raddr)
  }

  lemma HandshakeKeepsValid(p: Peer, er: Ephemeral)
    requires Valid(p) && HandshakeStep(p, er).Ok?
    ensures Valid(HandshakeStep(p, er).peer) && HandshakeStep(p, er).peer.running
  {
  }

  lemma TimeoutKeepsValid(p: Peer, event: Event, eph: Ephemeral)
    requires event in {HandshakeTimeout, KeepaliveTimeout, ReceiveTimeout}
    requires Valid(p) && Step(p, event, eph).Ok?
    ensures Valid(Step(p, event, eph).peer) && Step(p, event, eph).peer.running
  {
    assert p.running;
  }

  lemma StartKeepsValid(p: Peer)
    requires Valid(p) && StartPeer(p).Ok?
    ensures Valid(StartPeer(p).peer) && StartPeer(p).peer.running
  {
  }

  lemma PacketKeepsValid(p: Peer, packet: Payload, e: Ephemeral)
    requires Valid(p) && OutboundPacket(p, packet, e).Ok?
    ensures Valid(OutboundPacket(p, packet, e).peer) && OutboundPacket(p, packet, e).peer.running == p.running
  {
  }

  lemma HandshakeArrivalKeepsValid(p: Peer, h: HandshakeBuffer)
    requires Valid(p) && ReceiveHandshake(p, h).Ok?
    ensures Valid(ReceiveHandshake(p, h).peer) && ReceiveHandshake(p, h).peer.running == p.running
  {
  }

  lemma DataArrivalKeepsValid(p: Peer, d: DataBuffer)
    requires Valid(p)
    ensures InboundPacket(p, d).Ok? && Valid(InboundPacket(p, d).peer) && InboundPacket(p, d).peer.running == p.running
  {
  }

  lemma TakingKeepsValid(p: Peer)
    requires Valid(p)
    ensures TakeInboundStep(p).Ok? ==> Valid(TakeInboundStep(p).peer) && TakeInboundStep(p).peer.running
    ensures TakeOutboundStep(p).Ok? ==> Valid(TakeOutboundStep(p).peer) && TakeOutboundStep(p).peer.running
  {
  }

  lemma OpenKeepsValid(p: Peer)
    requires Valid(p) && OpenStep(p).Ok?
    ensures Valid(OpenStep(p).peer) && OpenStep(p).peer.running
  {
    assert p.running;
  }

  lemma SendKeepsValid(p: Peer)
    requires Valid(p) && SendStep(p).Ok?
    ensures Valid(SendStep(p).peer) && SendStep(p).peer.running
  {
    assert p.running;
  }

  /** Every step of every handler keeps the invariant, and a started peer stays started. */
  lemma StepKeepsValid(p: Peer, event: Event, eph: Ephemeral)
    requires Valid(p) && Step(p, event, eph).Ok?
    ensures Valid(Step(p, event, eph).peer)
    ensures p.running ==> Step(p, event, eph).peer.running
  {
    match event
    case Start => StartKeepsValid(p);
    case FromTunnel(packet) => PacketKeepsValid(p, packet, eph);
    case HandshakeArrives(h) => HandshakeArrivalKeepsValid(p, h);
    case DataArrives(d) => DataArrivalKeepsValid(p, d);
    case HandshakeLoop => HandshakeKeepsValid(p, eph);
    case TakeInbound | TakeOutbound => TakingKeepsValid(p);
    case OpenInbound => OpenKeepsValid(p);
    case SendOutbound => SendKeepsValid(p);
    case HandshakeTimeout | KeepaliveTimeout | ReceiveTimeout => TimeoutKeepsValid(p, event, eph);
  }

  /** The one way a peer comes to grief: its handshake loop picks up a message it cannot digest.  In particular no
      data loop ever meets a missing cipher, the handshake loop never releases a free lock and no timer crashes. */
  lemma CrashExactly(p: Peer, event: Event, eph: Ephemeral)
    requires Valid(p)
    ensures Step(p, event, eph).Crash? <==>
            event == HandshakeLoop && p.handshakes != [] && !Acceptable(p, p.handshakes[0])
  {
  }

  /** The data loops take packets at any time and finish with them exactly inside a session; the handshake loop never
      waits for the lock of an established session. */
  lemma BlockedExactly(p: Peer, eph: Ephemeral)
    requires Valid(p) && p.running
    ensures TakeInboundStep(p).Blocked? <==> p.inbound == [] || p.opening.Some?
    ensures OpenStep(p).Blocked? <==> p.opening.None? || p.state != 2
    ensures TakeOutboundStep(p).Blocked? <==> p.outbound == [] || p.sending.Some?
    ensures SendStep(p).Blocked? <==> p.sending.None? || p.state != 2
    ensures HandshakeStep(p, eph).Blocked? <==> p.handshakes == []
  {
  }

  /** The timers run exactly when they are armed: the receive timeout never finds the lock taken. */
  lemma TimersBlockedExactly(p: Peer, eph: Ephemeral)
    requires Valid(p) && p.running
    ensures HandshakeTimedOut(p, eph).Blocked? <==> p.state != 1
    ensures ReceiveTimedOut(p, eph).Blocked? <==> !p.receiveTimer
    ensures KeepaliveTimedOut(p).Blocked? <==> !p.keepaliveTimer
  {
  }

  /** Empty channels, or those of p but for a keepalive in an empty outbound channel; either way the data loops hold
      what they held. */
  predicate ResetOrKept(p: Peer, q: Peer, keepalive: bool) {
    q.opening == p.opening && q.sending == p.sending &&
    (|| (q.handshakes == [] && q.inbound == [] && q.outbound == [])
     || (q.handshakes == p.handshakes && q.inbound == p.inbound &&
         (q.outbound == p.outbound || (keepalive && p.outbound == [] && q.outbound == [[]]))))
  }

  lemma ChannelsOfAttempt(p: Peer, retry: bool, e: Ephemeral)
    ensures TrySendHandshake(p, retry, e).Ok? && ResetOrKept(p, TrySendHandshake(p, retry, e).peer, false)
  {
  }

  lemma ChannelsOfHandshakeTimeout(p: Peer, eph: Ephemeral)
    requires HandshakeTimedOut(p, eph).Ok?
    ensures ResetOrKept(p, HandshakeTimedOut(p, eph).peer, false)
  {
    ChannelsOfAttempt(p.(handshakeTimer := false, inTransport := false), true, eph);
  }

  lemma ChannelsOfReceiveTimeout(p: Peer, eph: Ephemeral)
    requires ReceiveTimedOut(p, eph).Ok?
    ensures ResetOrKept(p, ReceiveTimedOut(p, eph).peer, false)
  {
    ChannelsOfAttempt(p.(receiveTimer := false, keepaliveTimer := false, locked := true, state := 0), true, eph);
  }

  /** A timeout that resets the peer empties its channels; any other timeout leaves them alone, but for a keepalive. */
  lemma ChannelsOfTimeout(p: Peer, event: Event, eph: Ephemeral)
    requires event in {HandshakeTimeout, KeepaliveTimeout, ReceiveTimeout}
    requires Step(p, event, eph).Ok?
    ensures ResetOrKept(p, Step(p, event, eph).peer, event == KeepaliveTimeout)
  {
    match event
    case HandshakeTimeout => ChannelsOfHandshakeTimeout(p, eph);
    case ReceiveTimeout => ChannelsOfReceiveTimeout(p, eph);
    case KeepaliveTimeout =>
  }

  // ---------------------------------------------------------------------------------------------------------
  // Bounded retry
  // ---------------------------------------------------------------------------------------------------------

  /** A peer left alone: one handshake timeout per element of `es`, the ephemeral it would draw, and the datagrams
      that are sent. */
  function Timeouts(p: Peer, es: seq<Ephemeral>): Option<(Peer, seq<Datagram>)>
    decreases |es|
  {
    if es == [] then Some((p, []))
    else
      var first := HandshakeTimedOut(p, es[0]);
      if !first.Ok? then None
      else
        var rest := Timeouts(first.peer, es[1..]);
        if rest.None? then None
        else Some((rest.value.0, (if first.sent.Some? then [first.sent.value] else []) + rest.value.1))
  }

  function InitiationsTo(to: Endpoint, es: seq<Ephemeral>): (r: seq<Datagram>)
    ensures |r| == |es| && forall i | 0 <= i < |es| :: r[i] == Datagram(to, Handshake(0, Init(es[i])))
  {
    seq(|es|, i requires 0 <= i < |es| => Datagram(to, Handshake(0, Init(es[i]))))
  }

  /** Without an answer every timeout but the last sends one more initiation, and the one that exhausts the retries
      brings the peer back to idle, keeping the lock and dropping what was queued, but not what the loops hold. */
  lemma {:induction false} RetriesRunOut(p: Peer, es: seq<Ephemeral>)
    requires Valid(p) && p.running && p.state == 1
    requires |es| == HANDSHAKE_RETRIES + 1 - p.retries
    ensures Timeouts(p, es) ==
            Some((Reset(p).(handshakeTimer := false), InitiationsTo(p.raddr, es[..|es| - 1])))
    ensures forall k | 0 <= k < |es| ::
              Timeouts(p, es[..k]).Some? && Timeouts(p, es[..k]).value.0.state == 1
              && Timeouts(p, es[..k]).value.0.retries == p.retries + k
    decreases |es|
  {
    var first := HandshakeTimedOut(p, es[0]);
    if p.retries < HANDSHAKE_RETRIES {
      StepKeepsValid(p, HandshakeTimeout, es[0]);
      RetriesRunOut(first.peer, es[1..]);
      assert [first.sent.value] + InitiationsTo(p.raddr, es[1..][..|es| - 2]) == InitiationsTo(p.raddr, es[..|es| - 1]);
      forall k | 0 <= k < |es|
        ensures Timeouts(p, es[..k]).Some? && Timeouts(p, es[..k]).value.0.state == 1
                && Timeouts(p, es[..k]).value.0.retries == p.retries + k
      {
        if k > 0 {
          assert es[..k][1..] == es[1..][..k - 1];
        }
      }
    } else {
      assert first == Ok(Reset(p).(handshakeTimer := false), None, None);
      assert Timeouts(first.peer, es[1..]) == Some((first.peer, []));
      assert Timeouts(p, es).value.1 == InitiationsTo(p.raddr, es[..|es| - 1]);
    }
  }
}
