/** What each handler does to a started peer, field by field, in any state a peer can be in; by EveryPeerIsValid that is
    every state of every run.  Nothing here speaks of how the handlers are written. */
module PeerEffects {
  import opened Options
  import opened Symbolic
  import opened PeerMachine

  /** A peer that has nothing left of a session or an attempt; its data loops hold what they held. */
  predicate GoneIdle(p: Peer, q: Peer) {
    && q.state == 0 && !q.initiator && !q.inTransport && q.retries == 0
    && q.hs == NoHandshake && q.tx.None? && q.rx.None?
    && !q.handshakeTimer && !q.receiveTimer && !q.keepaliveTimer
    && q.handshakes == [] && q.inbound == [] && q.outbound == []
    && q.locked && q.running == p.running && q.raddr == p.raddr && q.opening == p.opening && q.sending == p.sending
  }

  /** A peer that has just sent its n-th initiation, with this ephemeral; ciphers, channels and hands are as before. */
  predicate Dialled(p: Peer, q: Peer, eph: Ephemeral, n: nat) {
    && q.state == 1 && q.initiator && q.retries == n && q.hs == Initiating(eph)
    && q.handshakeTimer && !q.receiveTimer && !q.keepaliveTimer
    && q.tx == p.tx && q.rx == p.rx
    && q.handshakes == p.handshakes && q.inbound == p.inbound
    && q.locked && q.running == p.running && q.raddr == p.raddr && q.opening == p.opening && q.sending == p.sending
  }

  predicate SendsInit(p: Peer, o: Outcome, eph: Ephemeral)
    requires o.Ok?
  {
    o.sent == Some(Datagram(p.raddr, Handshake(0, Init(eph)))) && o.written.None?
  }

  predicate SendsNothing(o: Outcome)
    requires o.Ok?
  {
    o.sent.None? && o.written.None?
  }

  // ---------------------------------------------------------------------------------------------------------
  // Timers
  // ---------------------------------------------------------------------------------------------------------

  /** Fifteen seconds of silence: a responder forgets the session, an initiator begins a new attempt at once. */
  lemma ReceiveTimeoutEffect(p: Peer, eph: Ephemeral)
    requires Valid(p) && p.running && p.receiveTimer
    ensures var o := Step(p, ReceiveTimeout, eph);
            && o.Ok?
            && (!p.initiator ==> SendsNothing(o) && GoneIdle(p, o.peer))
            && (p.initiator ==>
                  && SendsInit(p, o, eph) && Dialled(p, o.peer, eph, 1)
                  && o.peer.outbound == p.outbound && o.peer.inTransport)
  {
  }

  /** An unanswered initiation: another one, until ten have been sent. */
  lemma HandshakeTimeoutEffect(p: Peer, eph: Ephemeral)
    requires Valid(p) && p.running && p.handshakeTimer
    ensures var o := Step(p, HandshakeTimeout, eph);
            && o.Ok?
            && (p.retries == HANDSHAKE_RETRIES ==> SendsNothing(o) && GoneIdle(p, o.peer))
            && (p.retries < HANDSHAKE_RETRIES ==>
                  && SendsInit(p, o, eph) && Dialled(p, o.peer, eph, p.retries + 1)
                  && o.peer.outbound == p.outbound && !o.peer.inTransport)
  {
  }

  /** Ten seconds without sending: an empty packet is queued if nothing else is. */
  lemma KeepaliveTimeoutEffect(p: Peer, eph: Ephemeral)
    requires Valid(p) && p.running && p.keepaliveTimer
    ensures var o := Step(p, KeepaliveTimeout, eph);
            && o.Ok? && SendsNothing(o)
            && o.peer.outbound == (if p.outbound == [] then [[]] else p.outbound)
            && o.peer == p.(outbound := o.peer.outbound, keepaliveTimer := false)
  {
  }

  // ---------------------------------------------------------------------------------------------------------
  // What comes in
  // ---------------------------------------------------------------------------------------------------------

  function Appended<T>(channel: seq<T>, x: T, size: nat): seq<T> {
    if |channel| < size then channel + [x] else channel
  }

  /** A packet from the tunnel is queued if there is room; it begins a handshake exactly when the peer is idle, whatever
      the data loops hold. */
  lemma TunnelPacketEffect(p: Peer, packet: Payload, eph: Ephemeral)
    requires Valid(p) && p.running
    ensures var o := Step(p, FromTunnel(packet), eph);
            && o.Ok? && o.peer.outbound == Appended(p.outbound, packet, OUTBOUND_SIZE)
            && (p.state == 0 ==> SendsInit(p, o, eph) && Dialled(p, o.peer, eph, 1) && !o.peer.inTransport)
            && (p.state != 0 ==> SendsNothing(o) && o.peer == p.(outbound := o.peer.outbound))
  {
  }

  /** After an attempt has been given up the next packet begins a new one. */
  lemma NextPacketTriesAgain(p: Peer, eph: Ephemeral, packet: Payload, next: Ephemeral)
    requires Valid(p) && p.running && p.handshakeTimer && p.retries == HANDSHAKE_RETRIES
    ensures Step(p, HandshakeTimeout, eph).Ok?
    ensures var idle := Step(p, HandshakeTimeout, eph).peer;
            var o := Step(idle, FromTunnel(packet), next);
            o.Ok? && SendsInit(p, o, next) && Dialled(idle, o.peer, next, 1) && o.peer.outbound == [packet]
  {
    HandshakeTimeoutEffect(p, eph);
    StepKeepsValid(p, HandshakeTimeout, eph);
    TunnelPacketEffect(Step(p, HandshakeTimeout, eph).peer, packet, next);
  }

  /** A data packet is queued if there is room, and is dropped otherwise. */
  lemma DataArrivalEffect(p: Peer, d: DataBuffer, eph: Ephemeral)
    requires Valid(p) && p.running
    ensures var o := Step(p, DataArrives(d), eph);
            o.Ok? && SendsNothing(o) && o.peer == p.(inbound := Appended(p.inbound, d, INBOUND_SIZE))
  {
  }

  /** A handshake message is queued if there is room; its reader waits otherwise. */
  lemma HandshakeArrivalEffect(p: Peer, h: HandshakeBuffer, eph: Ephemeral)
    requires Valid(p) && p.running
    ensures var o := Step(p, HandshakeArrives(h), eph);
            if |p.handshakes| < HANDSHAKE_SIZE
            then o.Ok? && SendsNothing(o) && o.peer == p.(handshakes := p.handshakes + [h])
            else o.Blocked?
  {
  }

  /** Starting takes the lock and nothing else; a running peer is left alone. */
  lemma StartEffect(p: Peer, eph: Ephemeral)
    requires Valid(p)
    ensures var o := Step(p, Start, eph);
            && o.Ok? && SendsNothing(o)
            && o.peer == if p.running then p else NewPeer(p.raddr).(locked := true, running := true)
  {
  }

  /** A peer that was not started does nothing, whatever happens. */
  lemma StoppedEffect(p: Peer, event: Event, eph: Ephemeral)
    requires Valid(p) && !p.running && event != Start
    ensures var o := Step(p, event, eph); o.Blocked? || (o.Ok? && SendsNothing(o) && o.peer == p)
    ensures event.FromTunnel? || event.DataArrives? || event.HandshakeArrives? ==> Step(p, event, eph).Ok?
  {
  }

  /** The data loops take what came first, and nothing else changes. */
  lemma TakingEffect(p: Peer, eph: Ephemeral)
    requires Valid(p) && p.running
    ensures p.inbound != [] && p.opening.None? ==>
              var o := Step(p, TakeInbound, eph);
              && o.Ok? && SendsNothing(o) && o.peer.opening.Some?
              && p.inbound == [o.peer.opening.value] + o.peer.inbound
              && o.peer.(opening := None, inbound := p.inbound) == p
    ensures p.outbound != [] && p.sending.None? ==>
              var o := Step(p, TakeOutbound, eph);
              && o.Ok? && SendsNothing(o) && o.peer.sending.Some?
              && p.outbound == [o.peer.sending.value] + o.peer.outbound
              && o.peer.(sending := None, outbound := p.outbound) == p
  {
  }

  /** A handshake message that can be digested completes a handshake: both ciphers are those of the session it names,
      unused; a responder answers; from now on the peer sends to where the message came from. */
  lemma HandshakeEffect(p: Peer, er: Ephemeral)
    requires Valid(p) && p.running && p.handshakes != [] && Acceptable(p, p.handshakes[0])
    ensures var o, h := Step(p, HandshakeLoop, er), p.handshakes[0];
            && o.Ok? && o.written.None?
            && p.handshakes == [h] + o.peer.handshakes
            && o.peer.state == 2 && o.peer.inTransport && !o.peer.locked && o.peer.retries == 0
            && o.peer.raddr == h.from && o.peer.initiator == p.initiator
            && !o.peer.handshakeTimer && o.peer.keepaliveTimer
            && o.peer.receiveTimer == (p.state == 2 || p.receiveTimer)
            && o.peer.inbound == p.inbound && o.peer.outbound == p.outbound
            && o.peer.opening == p.opening && o.peer.sending == p.sending
            && var r := if p.initiator then h.body.er else er;
               && o.sent == (if p.initiator then None else Some(Datagram(h.from, Handshake(1, Resp(h.body.ei, er)))))
               && o.peer.tx ==
                  Some(Cipher(Key(h.body.ei, r, if p.initiator then ToResponder else ToInitiator), 0))
               && o.peer.rx ==
                  Some(Cipher(Key(h.body.ei, r, if p.initiator then ToInitiator else ToResponder), 0))
  {
  }

  /** A data packet in hand is opened with the counter of its header as nonce: what is in it, unless that is nothing, is
      written, and the other side has been heard; a packet that cannot be opened leaves no trace but the nonce. */
  lemma OpeningEffect(p: Peer, eph: Ephemeral)
    requires Valid(p) && p.running && p.state == 2 && p.opening.Some?
    ensures var o, d := Step(p, OpenInbound, eph), p.opening.value;
            && o.Ok? && o.sent.None? && p.rx.Some?
            && var c := p.rx.value;
               if d.box.key == c.key && d.box.nonce == d.counter <= MAX_NONCE then
                 && o.written == (if d.box.payload == [] then None else Some(d.box.payload))
                 && o.peer == p.(opening := None, rx := Some(Cipher(c.key, d.counter + 1)), receiveTimer := true,
                                 raddr := d.from)
               else o.written.None? && o.peer == p.(opening := None, rx := Some(Cipher(c.key, d.counter)))
  {
  }

  // ---------------------------------------------------------------------------------------------------------
  // What goes out
  // ---------------------------------------------------------------------------------------------------------

  /** The packet in hand goes out under the session's key to the peer's endpoint, unless the nonces are used up. */
  lemma SendingEffect(p: Peer, eph: Ephemeral)
    requires Valid(p) && p.running && p.state == 2 && p.sending.Some?
    ensures var o := Step(p, SendOutbound, eph);
            && o.Ok? && o.written.None? && o.peer.sending.None? && p.tx.Some?
            && var c := p.tx.value;
               if c.nonce <= MAX_NONCE then
                 && o.sent == Some(Datagram(p.raddr, Data(c.nonce, Sealed(c.key, c.nonce, p.sending.value))))
                 && o.peer == p.(sending := None, tx := Some(Cipher(c.key, c.nonce + 1)), keepaliveTimer := true)
               else o.sent.None? && o.peer == p.(sending := None)
  {
  }

  lemma OthersDoNotInitiate(p: Peer, event: Event, eph: Ephemeral)
    requires Valid(p) && p.running && Step(p, event, eph).Ok?
    requires !event.FromTunnel? && event != HandshakeTimeout && event != ReceiveTimeout
    ensures var o := Step(p, event, eph);
            !(o.sent.Some? && o.sent.value.message.Handshake? && o.sent.value.message.body.Init?)
  {
  }

  /** A node sends an initiation exactly in these cases: a packet comes from the tunnel while the peer is idle, an
      initiation has not been answered and is not the tenth, or nothing more is heard from the other side of a session
      that this node initiated. */
  lemma InitiatesExactly(p: Peer, event: Event, eph: Ephemeral)
    requires Valid(p) && p.running && Step(p, event, eph).Ok?
    ensures var o := Step(p, event, eph);
            (o.sent.Some? && o.sent.value.message.Handshake? && o.sent.value.message.body.Init?) <==>
              || (event.FromTunnel? && p.state == 0)
              || (event == HandshakeTimeout && p.retries < HANDSHAKE_RETRIES)
              || (event == ReceiveTimeout && p.initiator)
  {
    match event
    case FromTunnel(packet) => TunnelPacketEffect(p, packet, eph);
    case HandshakeTimeout => HandshakeTimeoutEffect(p, eph);
    case ReceiveTimeout => ReceiveTimeoutEffect(p, eph);
    case _ => OthersDoNotInitiate(p, event, eph);
  }

  // ---------------------------------------------------------------------------------------------------------
  // Where it goes
  // ---------------------------------------------------------------------------------------------------------

  /** Where the other side was last heard: a handshake message that completed a handshake, or a data packet that could
      be decrypted. */
  function HeardIn(p: Peer, event: Event): Endpoint {
    if event == HandshakeLoop && p.handshakes != [] then p.handshakes[0].from
    else if event == OpenInbound && p.opening.Some? && p.rx.Some? && p.opening.value.box.key == p.rx.value.key
            && p.opening.value.box.nonce == p.opening.value.counter <= MAX_NONCE
    then p.opening.value.from
    else p.raddr
  }

  predicate SendsTo(o: Outcome, to: Endpoint)
    requires o.Ok?
  {
    o.peer.raddr == to && (o.sent.Some? ==> o.sent.value.to == to)
  }

  lemma LoopsSendWhereHeard(p: Peer, eph: Ephemeral)
    requires Valid(p)
    ensures HandshakeStep(p, eph).Ok? ==> SendsTo(HandshakeStep(p, eph), HeardIn(p, HandshakeLoop))
    ensures OpenStep(p).Ok? ==> SendsTo(OpenStep(p), HeardIn(p, OpenInbound))
    ensures SendStep(p).Ok? ==> SendsTo(SendStep(p), p.raddr)
  {
  }

  lemma TimersSendWhereHeard(p: Peer, eph: Ephemeral)
    requires Valid(p)
    ensures HandshakeTimedOut(p, eph).Ok? ==> SendsTo(HandshakeTimedOut(p, eph), p.raddr)
    ensures KeepaliveTimedOut(p).Ok? ==> SendsTo(KeepaliveTimedOut(p), p.raddr)
    ensures ReceiveTimedOut(p, eph).Ok? ==> SendsTo(ReceiveTimedOut(p, eph), p.raddr)
  {
  }

  /** A step sends where the other side was last heard, this step included. */
  lemma SendsWhereHeard(p: Peer, event: Event, eph: Ephemeral)
    requires Valid(p) && Step(p, event, eph).Ok?
    ensures SendsTo(Step(p, event, eph), HeardIn(p, event))
  {
    match event
    case HandshakeLoop | OpenInbound | SendOutbound => LoopsSendWhereHeard(p, eph);
    case HandshakeTimeout | KeepaliveTimeout | ReceiveTimeout => TimersSendWhereHeard(p, eph);
    case Start | FromTunnel(_) | HandshakeArrives(_) | DataArrives(_) | TakeInbound | TakeOutbound =>
  }
}
