/** Key agreement over the lossy, reordering, duplicating network. */
module KeyAgreement {
  import opened Options
  import opened Symbolic
  import opened PeerMachine
  import opened Network

  /** What a responder installs for the session of two ephemerals. */
  function Agreed(ei: Ephemeral, er: Ephemeral): Install {
    Install(ei, er, Key(ei, er, ToInitiator), Key(ei, er, ToResponder))
  }

  function LastInit(n: Node): Option<Ephemeral> {
    if n.inits == [] then None else Some(n.inits[|n.inits| - 1])
  }

  function LastInstall(n: Node): Option<Install> {
    if n.installs == [] then None else Some(n.installs[|n.installs| - 1])
  }

  /** A message that `from` sent: an initiation it made, its answer to one, or a packet it encrypted. */
  predicate Genuine(message: Message, from: Node) {
    match message
    case Handshake(c, Init(e)) => c == 0 && e in from.inits
    case Handshake(c, Resp(ei, er)) => c == 1 && Agreed(ei, er) in from.installs
    case Data(c, box) => c == box.nonce <= MAX_NONCE && box in from.sealed
  }

  predicate Channelled(p: Peer, mail: set<Message>) {
    && (forall h | h in p.handshakes :: Handshake(h.counter, h.body) in mail)
    && (forall d | d in p.inbound :: Data(d.counter, d.box) in mail)
    && (p.opening.Some? ==> Data(p.opening.value.counter, p.opening.value.box) in mail)
  }

  predicate MailInv(n: Node, m: Node) {
    && (forall message | message in n.mail :: Genuine(message, m))
    && Channelled(n.peer, n.mail)
  }

  predicate FreshInv(n: Node, side: Side) {
    && (forall e | e in n.inits :: e.owner == side && e.index < n.drawn)
    && (forall i, j | 0 <= i < j < |n.inits| :: n.inits[i].index < n.inits[j].index)
    && (forall i | i in n.installs :: i.er.owner == side && i.er.index < n.drawn && i == Agreed(i.ei, i.er))
    && (forall i, j | 0 <= i < j < |n.installs| :: n.installs[i].er.index < n.installs[j].er.index)
  }

  /** The session a peer is in: as an initiator it is one that `m` installed, for the last initiation made here; as
      a responder it is the last one installed here. */
  predicate Session(n: Node, m: Node)
    requires n.peer.state == 2 && n.peer.tx.Some? && n.peer.rx.Some?
  {
    var p := n.peer;
    var ei, er := p.tx.value.key.initiator, p.tx.value.key.responder;
    if p.initiator then
      && p.tx.value.key == Key(ei, er, ToResponder)
      && p.rx.value.key == Key(ei, er, ToInitiator)
      && LastInit(n) == Some(ei)
      && Agreed(ei, er) in m.installs
    else
      && LastInstall(n) == Some(Agreed(ei, er))
      && p.tx.value.key == Agreed(ei, er).tx
      && p.rx.value.key == Agreed(ei, er).rx
  }

  predicate SessionInv(n: Node, m: Node) {
    var p := n.peer;
    && Valid(p)
    && (p.state == 1 ==> LastInit(n) == Some(p.hs.e))
    && (p.state == 2 ==> Session(n, m))
    && (n.live ==> p.state == 2 && !p.initiator)
    && n.attempt == p.retries
  }

  predicate NodeInv(n: Node, m: Node, side: Side) {
    MailInv(n, m) && FreshInv(n, side) && SessionInv(n, m)
  }

  predicate Inv(s: Sys) {
    NodeInv(s.west, s.east, West) && NodeInv(s.east, s.west, East)
  }

  // ---------------------------------------------------------------------------------------------------------
  // What a single step can do to channels, sessions and the network
  // ---------------------------------------------------------------------------------------------------------

  /** A channel only loses its head or everything, and only gains what arrives. */
  predicate Shifted<T(==)>(before: seq<T>, after: seq<T>, arrived: Option<T>) {
    || after == before
    || after == []
    || (before != [] && after == before[1..])
    || (arrived.Some? && after == before + [arrived.value])
  }

  predicate ChannelsShifted(p: Peer, event: Event, q: Peer) {
    && Shifted(p.handshakes, q.handshakes, if event.HandshakeArrives? then Some(event.h) else None)
    && Shifted(p.inbound, q.inbound, if event.DataArrives? then Some(event.d) else None)
    && (q.opening == p.opening || q.opening.None? || (p.inbound != [] && q.opening == Some(p.inbound[0])))
  }

  lemma HandshakeShifts(p: Peer, eph: Ephemeral)
    requires HandshakeStep(p, eph).Ok?
    ensures HandshakeStep(p, eph).peer.handshakes == p.handshakes[1..]
    ensures HandshakeStep(p, eph).peer.inbound == p.inbound
    ensures HandshakeStep(p, eph).peer.outbound == p.outbound
    ensures HandshakeStep(p, eph).peer.opening == p.opening && HandshakeStep(p, eph).peer.sending == p.sending
  {
  }

  lemma TakingShifts(p: Peer)
    ensures TakeInboundStep(p).Ok? ==> ChannelsShifted(p, TakeInbound, TakeInboundStep(p).peer)
    ensures TakeOutboundStep(p).Ok? ==> ChannelsShifted(p, TakeOutbound, TakeOutboundStep(p).peer)
  {
  }

  lemma LoopShifts(p: Peer)
    ensures OpenStep(p).Ok? ==> ChannelsShifted(p, OpenInbound, OpenStep(p).peer)
    ensures SendStep(p).Ok? ==> ChannelsShifted(p, SendOutbound, SendStep(p).peer)
  {
  }

  lemma TunnelShifts(p: Peer, packet: Payload, eph: Ephemeral)
    requires OutboundPacket(p, packet, eph).Ok?
    ensures ChannelsShifted(p, FromTunnel(packet), OutboundPacket(p, packet, eph).peer)
  {
  }

  lemma ChannelsOfStep(p: Peer, event: Event, eph: Ephemeral)
    requires Step(p, event, eph).Ok?
    ensures ChannelsShifted(p, event, Step(p, event, eph).peer)
  {
    match event
    case HandshakeTimeout | KeepaliveTimeout | ReceiveTimeout => ChannelsOfTimeout(p, event, eph);
    case HandshakeLoop => HandshakeShifts(p, eph);
    case TakeInbound | TakeOutbound => TakingShifts(p);
    case OpenInbound | SendOutbound => LoopShifts(p);
    case FromTunnel(packet) => TunnelShifts(p, packet, eph);
    case Start | HandshakeArrives(_) | DataArrives(_) =>
  }

  /** An initiation uses the ephemeral of the step and leaves the peer waiting for the answer to it; an answer is
      sent exactly by a handshake step of a responder, for the session it now has; a data packet carries in its
      header the nonce of its box. */
  predicate Explains(p: Peer, event: Event, eph: Ephemeral, o: Outcome)
    requires o.Ok?
  {
    match o.sent
    case None => !Installs(p, event)
    case Some(Datagram(_, Handshake(c, Init(ei)))) =>
      c == 0 && ei == eph && !Installs(p, event) && o.peer.state == 1 && o.peer.hs == Initiating(eph)
    case Some(Datagram(_, Handshake(c, Resp(ei, er)))) =>
      && c == 1 && er == eph && Installs(p, event)
      && p.handshakes != [] && p.handshakes[0].body == Init(ei)
      && o.peer.state == 2 && !o.peer.initiator
      && InstallOf(o.peer) == [Agreed(ei, er)]
    case Some(Datagram(_, Data(c, box))) =>
      && c == box.nonce <= MAX_NONCE && !Installs(p, event)
      && event == SendOutbound
  }

  lemma StepExplained(p: Peer, event: Event, eph: Ephemeral)
    requires Valid(p) && Step(p, event, eph).Ok?
    ensures Explains(p, event, eph, Step(p, event, eph))
  {
  }

  /** Where the state after a step comes from. */
  lemma StateOfStep(p: Peer, event: Event, eph: Ephemeral)
    requires Valid(p) && Step(p, event, eph).Ok?
    ensures var o := Step(p, event, eph);
            && (o.peer.state == 1 ==>
                  || (o.sent.Some? && o.sent.value.message == Handshake(0, Init(eph)))
                  || (p.state == 1 && o.peer.hs == p.hs && o.sent.None? && o.peer.retries == p.retries))
            && (o.peer.state == 1 && p.state == 1 && o.sent.Some? ==> o.peer.retries == p.retries + 1)
            && (o.peer.state == 1 && p.state != 1 ==> o.peer.retries == 1)
            && (o.peer.state == 2 ==>
                  || (event == HandshakeLoop && (p.initiator ==> p.state == 1 && o.peer.initiator))
                  || (p.state == 2 && o.peer.initiator == p.initiator
                      && o.peer.tx.value.key == p.tx.value.key && o.peer.rx.value.key == p.rx.value.key))
  {
    StepKeepsValid(p, event, eph);
  }

  // ---------------------------------------------------------------------------------------------------------
  // The invariant over runs
  // ---------------------------------------------------------------------------------------------------------

  lemma ChannelsKept(n: Node, side: Side, event: Event)
    requires Channelled(n.peer, n.mail)
    requires Taken(n, side, event).Ok? && Arrived(n, event)
    ensures Channelled(Taken(n, side, event).peer, n.mail)
  {
    ChannelsOfStep(n.peer, event, Ephemeral(side, n.drawn));
  }

  lemma GenuineStays(message: Message, n: Node, side: Side, event: Event)
    requires Genuine(message, n) && Taken(n, side, event).Ok?
    ensures Genuine(message, After(n, side, event))
  {
  }

  lemma SentIsGenuine(n: Node, side: Side, event: Event)
    requires Valid(n.peer) && Taken(n, side, event).Ok? && Taken(n, side, event).sent.Some?
    ensures Genuine(Taken(n, side, event).sent.value.message, After(n, side, event))
  {
    StepExplained(n.peer, event, Ephemeral(side, n.drawn));
  }

  lemma OwnMailKept(n: Node, m: Node, side: Side, event: Event)
    requires MailInv(n, m) && Taken(n, side, event).Ok? && Arrived(n, event)
    ensures MailInv(After(n, side, event), Receive(m, Taken(n, side, event).sent))
  {
    ChannelsKept(n, side, event);
  }

  lemma OtherMailKept(n: Node, m: Node, side: Side, event: Event)
    requires Valid(n.peer) && MailInv(m, n) && Taken(n, side, event).Ok?
    ensures MailInv(Receive(m, Taken(n, side, event).sent), After(n, side, event))
  {
    forall message | message in m.mail
      ensures Genuine(message, After(n, side, event))
    {
      GenuineStays(message, n, side, event);
    }
    if Taken(n, side, event).sent.Some? {
      SentIsGenuine(n, side, event);
    }
  }

  lemma MailKept(n: Node, m: Node, side: Side, event: Event)
    requires NodeInv(n, m, side) && NodeInv(m, n, side.Other())
    requires Taken(n, side, event).Ok? && Arrived(n, event)
    ensures MailInv(After(n, side, event), Receive(m, Taken(n, side, event).sent))
    ensures MailInv(Receive(m, Taken(n, side, event).sent), After(n, side, event))
  {
    OwnMailKept(n, m, side, event);
    OtherMailKept(n, m, side, event);
  }

  /** A step adds at most one initiation or one session, with the ephemeral it draws. */
  lemma FreshGrown(n: Node, after: Node, side: Side)
    requires FreshInv(n, side) && after.drawn == n.drawn + 1
    requires after.inits == n.inits || after.inits == n.inits + [Ephemeral(side, n.drawn)]
    requires after.installs == n.installs
             || exists ei :: after.installs == n.installs + [Agreed(ei, Ephemeral(side, n.drawn))]
    ensures FreshInv(after, side)
  {
  }

  lemma FreshKept(n: Node, m: Node, side: Side, event: Event)
    requires NodeInv(n, m, side)
    requires Taken(n, side, event).Ok?
    ensures FreshInv(After(n, side, event), side)
  {
    var o, eph := Taken(n, side, event), Ephemeral(side, n.drawn);
    StepExplained(n.peer, event, eph);
    assert Explains(n.peer, event, eph, o);
    if Installs(n.peer, event) {
      assert InstallOf(o.peer) == [Agreed(o.sent.value.message.body.ei, eph)];
    }
    FreshGrown(n, After(n, side, event), side);
  }

  lemma SessionKept(n: Node, m: Node, side: Side, event: Event)
    requires NodeInv(n, m, side)
    requires Taken(n, side, event).Ok? && Arrived(n, event)
    ensures SessionInv(After(n, side, event), Receive(m, Taken(n, side, event).sent))
  {
    var eph := Ephemeral(side, n.drawn);
    StepKeepsValid(n.peer, event, eph);
    StepExplained(n.peer, event, eph);
    StateOfStep(n.peer, event, eph);
  }

  /** The other node's invariant survives a step here: it only speaks of histories that grow. */
  lemma GrowthKept(n: Node, m: Node, side: Side, event: Event)
    requires FreshInv(m, side.Other()) && SessionInv(m, n) && Taken(n, side, event).Ok?
    ensures FreshInv(Receive(m, Taken(n, side, event).sent), side.Other())
    ensures SessionInv(Receive(m, Taken(n, side, event).sent), After(n, side, event))
  {
  }

  lemma NodesKept(n: Node, m: Node, side: Side, event: Event)
    requires NodeInv(n, m, side) && NodeInv(m, n, side.Other())
    requires Taken(n, side, event).Ok? && Arrived(n, event)
    ensures var u, v := After(n, side, event), Receive(m, Taken(n, side, event).sent);
            NodeInv(u, v, side) && NodeInv(v, u, side.Other())
  {
    MailKept(n, m, side, event);
    FreshKept(n, m, side, event);
    SessionKept(n, m, side, event);
    GrowthKept(n, m, side, event);
  }

  lemma InvOfNodes(s: Sys, side: Side)
    requires NodeInv(s.At(side), s.At(side.Other()), side) && NodeInv(s.At(side.Other()), s.At(side), side.Other())
    ensures Inv(s)
  {
  }

  lemma InvAt(s: Sys, side: Side)
    requires Inv(s)
    ensures NodeInv(s.At(side), s.At(side.Other()), side) && NodeInv(s.At(side.Other()), s.At(side), side.Other())
  {
  }

  lemma InvKept(s: Sys, a: Action)
    requires Inv(s) && Apply(s, a).Some?
    ensures Inv(Apply(s, a).value)
  {
    var n, m := s.At(a.side), s.At(a.side.Other());
    if !Dropped(n, a.event) {
      InvAt(s, a.side);
      NodesKept(n, m, a.side, a.event);
      InvOfNodes(Apply(s, a).value, a.side);
    }
  }

  lemma {:induction false} RunKeepsInv(s: Sys, actions: seq<Action>)
    requires Inv(s) && Run(s, actions).Some?
    ensures Inv(Run(s, actions).value)
    decreases |actions|
  {
    if actions != [] {
      InvKept(s, actions[0]);
      RunKeepsInv(Apply(s, actions[0]).value, actions[1..]);
    }
  }

  // ---------------------------------------------------------------------------------------------------------
  // Main results
  // ---------------------------------------------------------------------------------------------------------

  /** In every run, both peers satisfy the invariant of a peer, and the retry counter is the number of initiations
      sent in the current attempt. */
  lemma EveryPeerIsValid(s: Sys, actions: seq<Action>, side: Side)
    requires Initial(s) && Run(s, actions).Some?
    ensures Valid(Run(s, actions).value.At(side).peer)
    ensures Run(s, actions).value.At(side).attempt == Run(s, actions).value.At(side).peer.retries
  {
    RunKeepsInv(s, actions);
  }

  /** An initiator in an established session shares it with its remote peer: that peer has installed, as a responder,
      a session of the same two ephemerals, the first drawn by the initiator for its last initiation and the second
      by the responder, and what one encrypts with the other decrypts with. */
  lemma KeysAgree(s: Sys, actions: seq<Action>, side: Side)
    requires Initial(s) && Run(s, actions).Some?
    requires Run(s, actions).value.At(side).peer.state == 2 && Run(s, actions).value.At(side).peer.initiator
    ensures var n, m := Run(s, actions).value.At(side), Run(s, actions).value.At(side.Other());
            && n.peer.tx.Some? && n.peer.rx.Some?
            && var ei, er := n.peer.tx.value.key.initiator, n.peer.tx.value.key.responder;
            && Install(ei, er, n.peer.rx.value.key, n.peer.tx.value.key) in m.installs
            && ei.owner == side && er.owner == side.Other()
            && LastInit(n) == Some(ei)
  {
    RunKeepsInv(s, actions);
  }

  lemma KeysApart(n: Node, side: Side, i: nat, j: nat)
    requires FreshInv(n, side) && i < j < |n.installs|
    ensures {n.installs[i].tx, n.installs[i].rx} !! {n.installs[j].tx, n.installs[j].rx}
  {
    assert n.installs[i] in n.installs && n.installs[j] in n.installs;
  }

  /** In every run, each session a node installs as a responder has two keys that it never installed before. */
  lemma InstalledKeysAreNew(s: Sys, actions: seq<Action>, side: Side, i: nat, j: nat)
    requires Initial(s) && Run(s, actions).Some? && i < j < |Run(s, actions).value.At(side).installs|
    ensures var n := Run(s, actions).value.At(side);
            {n.installs[i].tx, n.installs[i].rx} !! {n.installs[j].tx, n.installs[j].rx}
  {
    RunKeepsInv(s, actions);
    InvAt(Run(s, actions).value, side);
    KeysApart(Run(s, actions).value.At(side), side, i, j);
  }

  /** In every run, each initiation draws an ephemeral that this node has not used in one before; by KeysAgree the key
      of a session an initiator completes contains it. */
  lemma InitiationsAreNew(s: Sys, actions: seq<Action>, side: Side, i: nat, j: nat)
    requires Initial(s) && Run(s, actions).Some? && i < j < |Run(s, actions).value.At(side).inits|
    ensures var n := Run(s, actions).value.At(side);
            n.inits[i] != n.inits[j] && n.inits[i].owner == side == n.inits[j].owner
  {
    RunKeepsInv(s, actions);
    InvAt(Run(s, actions).value, side);
    var n := Run(s, actions).value.At(side);
    assert n.inits[i] in n.inits && n.inits[j] in n.inits;
  }

  /** The message that a node in this state cannot digest. */
  predicate Untimely(n: Node, body: Body) {
    match n.peer.state
    case 1 => body.Init? || Some(body.ei) != LastInit(n)
    case 2 => n.peer.initiator || body.Resp?
    case _ => body.Resp?
  }

  lemma UntimelyIsUnacceptable(n: Node, m: Node, h: HandshakeBuffer)
    requires SessionInv(n, m) && n.peer.running && Genuine(Handshake(h.counter, h.body), m)
    ensures Acceptable(n.peer, h) <==> !Untimely(n, h.body)
  {
  }

  lemma CrashOfNode(n: Node, m: Node, side: Side, event: Event)
    requires NodeInv(n, m, side)
    ensures Taken(n, side, event).Crash? <==>
            event == HandshakeLoop && n.peer.handshakes != [] && Untimely(n, n.peer.handshakes[0].body)
  {
    CrashExactly(n.peer, event, Ephemeral(side, n.drawn));
    if n.peer.handshakes != [] {
      var h := n.peer.handshakes[0];
      assert Genuine(Handshake(h.counter, h.body), m);
      UntimelyIsUnacceptable(n, m, h);
    }
  }

  /** In every run, what makes a node's process crash: its handshake loop picks up a message of its remote peer that
      came at the wrong time.  An initiator that waits for an answer meets a crossed initiation or an answer to an
      earlier initiation of its own; an established initiator meets any handshake message at all; a peer without a
      session and an established responder meet an answer. */
  lemma CrashCauses(s: Sys, actions: seq<Action>, side: Side, event: Event)
    requires Initial(s) && Run(s, actions).Some?
    ensures var n := Run(s, actions).value.At(side);
            Taken(n, side, event).Crash? <==>
            event == HandshakeLoop && n.peer.handshakes != [] && Untimely(n, n.peer.handshakes[0].body)
  {
    RunKeepsInv(s, actions);
    InvAt(Run(s, actions).value, side);
    CrashOfNode(Run(s, actions).value.At(side), Run(s, actions).value.At(side.Other()), side, event);
  }
}
