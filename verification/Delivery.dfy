/** What becomes of packets: the outbound channel is served in order and loses nothing silently, and a node writes to
    its tunnel only what its peer read from the other one. */
module Delivery {
  import opened Options
  import opened Blocks
  import opened Symbolic
  import opened PeerMachine
  import opened Network
  import opened KeyAgreement

  /** The packets that were sent, in order, given what became of each. */
  function Kept(packets: seq<Payload>, fates: seq<Fate>): seq<Payload>
    requires |packets| == |fates|
  {
    if fates == [] then []
    else
      var k := |fates| - 1;
      Kept(packets[..k], fates[..k]) + if fates[k] == Sent then [packets[k]] else []
  }

  function Payloads(boxes: seq<Sealed>): seq<Payload> {
    seq(|boxes|, i requires 0 <= i < |boxes| => boxes[i].payload)
  }

  lemma {:induction false} KeptConcat(ps: seq<Payload>, fs: seq<Fate>, qs: seq<Payload>, gs: seq<Fate>)
    requires |ps| == |fs| && |qs| == |gs|
    ensures Kept(ps + qs, fs + gs) == Kept(ps, fs) + Kept(qs, gs)
    decreases |gs|
  {
    if gs == [] {
      assert ps + qs == ps && fs + gs == fs;
    } else {
      var k := |gs| - 1;
      KeptConcat(ps, fs, qs[..k], gs[..k]);
      assert (ps + qs)[..|ps| + k] == ps + qs[..k];
      assert (fs + gs)[..|fs| + k] == fs + gs[..k];
    }
  }

  lemma {:induction false} KeptNone(packets: seq<Payload>, fates: seq<Fate>)
    requires |packets| == |fates| && Sent !in fates
    ensures Kept(packets, fates) == []
  {
    if fates != [] {
      var k := |fates| - 1;
      assert fates[k] in fates && forall f | f in fates[..k] :: f in fates;
      KeptNone(packets[..k], fates[..k]);
    }
  }

  lemma {:induction false} KeptFrom(packets: seq<Payload>, fates: seq<Fate>, x: Payload)
    requires |packets| == |fates| && x in Kept(packets, fates)
    ensures x in packets
  {
    var k := |fates| - 1;
    if x in Kept(packets[..k], fates[..k]) {
      KeptFrom(packets[..k], fates[..k], x);
    }
  }

  // ---------------------------------------------------------------------------------------------------------
  // The books
  // ---------------------------------------------------------------------------------------------------------

  predicate OnlyFlushed(fates: seq<Fate>) {
    forall i | 0 <= i < |fates| :: fates[i] == Flushed
  }

  /** The k-th packet is in hand, and whatever left the channel after it was flushed. */
  predicate HeldAt(accepted: seq<Payload>, fates: seq<Fate>, x: Payload, k: nat) {
    && k < |fates| <= |accepted| && fates[k] == InHand && accepted[k] == x
    && InHand !in fates[..k] && OnlyFlushed(fates[k + 1..])
  }

  /** At most one packet is in hand, namely this one. */
  predicate Held(accepted: seq<Payload>, fates: seq<Fate>, hand: Option<Payload>) {
    match hand
    case None => InHand !in fates
    case Some(x) => exists k | 0 <= k < |fates| :: HeldAt(accepted, fates, x, k)
  }

  /** The accepted packets are those that have left the channel, each with its fate, and those in it, in order; what
      was encrypted is what was sent. */
  predicate Balanced(accepted: seq<Payload>, fates: seq<Fate>, channel: seq<Payload>, hand: Option<Payload>,
                     encrypted: seq<Payload>)
  {
    && |fates| <= |accepted|
    && channel == accepted[|fates|..]
    && Kept(accepted[..|fates|], fates) == encrypted
    && Held(accepted, fates, hand)
  }

  lemma SplitFurther(accepted: seq<Payload>, k: nat, more: seq<Payload>, gone: nat)
    requires k <= |accepted| && gone <= |accepted| - k + |more|
    ensures var q := accepted[k..] + more;
            && (accepted + more)[..k + gone] == accepted[..k] + q[..gone]
            && (accepted + more)[k + gone..] == q[gone..]
  {
    assert accepted + more == accepted[..k] + (accepted[k..] + more);
  }

  lemma HeldGrows(accepted: seq<Payload>, fates: seq<Fate>, hand: Option<Payload>, more: seq<Payload>,
                  flushed: seq<Fate>)
    requires |fates| <= |accepted| && Held(accepted, fates, hand)
    requires |fates + flushed| <= |accepted + more| && OnlyFlushed(flushed)
    ensures Held(accepted + more, fates + flushed, hand)
  {
    if hand.Some? {
      var k :| 0 <= k < |fates| && HeldAt(accepted, fates, hand.value, k);
      assert (fates + flushed)[..k] == fates[..k];
      assert (fates + flushed)[k + 1..] == fates[k + 1..] + flushed;
      assert HeldAt(accepted + more, fates + flushed, hand.value, k);
    }
  }

  /** Packets are accepted, and perhaps all in the channel are flushed. */
  lemma GrowthBalances(accepted: seq<Payload>, fates: seq<Fate>, channel: seq<Payload>, hand: Option<Payload>,
                       encrypted: seq<Payload>, more: seq<Payload>, flushed: seq<Fate>)
    requires Balanced(accepted, fates, channel, hand, encrypted)
    requires |flushed| <= |channel + more| && OnlyFlushed(flushed)
    ensures Balanced(accepted + more, fates + flushed, (channel + more)[|flushed|..], hand, encrypted)
  {
    var q := channel + more;
    SplitFurther(accepted, |fates|, more, |flushed|);
    KeptConcat(accepted[..|fates|], fates, q[..|flushed|], flushed);
    KeptNone(q[..|flushed|], flushed);
    HeldGrows(accepted, fates, hand, more, flushed);
  }

  /** The oldest packet in the channel is taken. */
  lemma TakingBalances(accepted: seq<Payload>, fates: seq<Fate>, channel: seq<Payload>, encrypted: seq<Payload>)
    requires Balanced(accepted, fates, channel, None, encrypted) && channel != []
    ensures Balanced(accepted, fates + [InHand], channel[1..], Some(channel[0]), encrypted)
  {
    var k := |fates|;
    assert accepted[..k + 1] == accepted[..k] + [channel[0]];
    KeptConcat(accepted[..k], fates, [channel[0]], [InHand]);
    KeptNone([channel[0]], [InHand]);
    var now := fates + [InHand];
    assert now[..k] == fates && now[k + 1..] == [];
    assert HeldAt(accepted, now, channel[0], k);
  }

  /** Only what came before the k-th packet, and perhaps that packet, was sent. */
  lemma KeptAround(packets: seq<Payload>, fates: seq<Fate>, k: nat)
    requires |packets| == |fates| && k < |fates| && OnlyFlushed(fates[k + 1..])
    ensures Kept(packets, fates) == Kept(packets[..k], fates[..k]) + if fates[k] == Sent then [packets[k]] else []
  {
    assert packets == packets[..k + 1] + packets[k + 1..] && fates == fates[..k + 1] + fates[k + 1..];
    KeptConcat(packets[..k + 1], fates[..k + 1], packets[k + 1..], fates[k + 1..]);
    KeptNone(packets[k + 1..], fates[k + 1..]);
    assert packets[..k + 1][..k] == packets[..k] && fates[..k + 1][..k] == fates[..k];
  }

  /** The packet in hand is sent, or fails to encrypt. */
  lemma SendingBalances(accepted: seq<Payload>, fates: seq<Fate>, channel: seq<Payload>, x: Payload,
                        encrypted: seq<Payload>, fate: Fate)
    requires Balanced(accepted, fates, channel, Some(x), encrypted) && (fate == Sent || fate == Failed)
    ensures Balanced(accepted, Resolved(fates, fate), channel, None, encrypted + if fate == Sent then [x] else [])
  {
    var k :| 0 <= k < |fates| && HeldAt(accepted, fates, x, k);
    KeptAround(accepted[..|fates|], fates, k);
    var now := Resolved(fates, fate);
    assert now[..k] == fates[..k] by {
      forall i | 0 <= i < k ensures now[i] == fates[i] {
        assert fates[..k][i] == fates[i];
      }
    }
    assert now[k + 1..] == fates[k + 1..] by {
      forall i | k < i < |fates| ensures now[i] == fates[i] {
        assert fates[k + 1..][i - k - 1] == fates[i];
      }
    }
    KeptAround(accepted[..|fates|], now, k);
    forall i | 0 <= i < |now| ensures now[i] != InHand {
    }
  }

  // ---------------------------------------------------------------------------------------------------------
  // One step
  // ---------------------------------------------------------------------------------------------------------

  /** A handler that at most accepts a packet, or flushes the channel: the loop's hands are full as before, and no
      packet is sent. */
  predicate GrowsOrFlushes(p: Peer, event: Event, o: Outcome)
    requires o.Ok?
  {
    && Boxes(o.sent) == [] && o.peer.sending == p.sending
    && FlushCount(p, event, o.peer) <= |p.outbound + Accepted(p, event)|
    && o.peer.outbound == (p.outbound + Accepted(p, event))[FlushCount(p, event, o.peer)..]
  }

  lemma TimeoutSendsNoPacket(p: Peer, event: Event, eph: Ephemeral)
    requires event in {HandshakeTimeout, KeepaliveTimeout, ReceiveTimeout}
    requires Step(p, event, eph).Ok?
    ensures Boxes(Step(p, event, eph).sent) == []
  {
  }

  lemma TimeoutAccounts(p: Peer, event: Event, eph: Ephemeral)
    requires event in {HandshakeTimeout, KeepaliveTimeout, ReceiveTimeout}
    requires Step(p, event, eph).Ok?
    ensures GrowsOrFlushes(p, event, Step(p, event, eph))
  {
    ChannelsOfTimeout(p, event, eph);
    TimeoutSendsNoPacket(p, event, eph);
  }

  lemma TunnelQueues(p: Peer, packet: Payload, eph: Ephemeral)
    requires OutboundPacket(p, packet, eph).Ok?
    ensures var o := OutboundPacket(p, packet, eph);
            && o.peer.outbound == p.outbound + Accepted(p, FromTunnel(packet)) && o.peer.sending == p.sending
            && Boxes(o.sent) == []
  {
    if p.running {
      var q := if |p.outbound| < OUTBOUND_SIZE then p.(outbound := p.outbound + [packet]) else p;
      assert q.outbound == p.outbound + Accepted(p, FromTunnel(packet));
    }
  }

  lemma TunnelAccounts(p: Peer, packet: Payload, eph: Ephemeral)
    requires OutboundPacket(p, packet, eph).Ok?
    ensures GrowsOrFlushes(p, FromTunnel(packet), OutboundPacket(p, packet, eph))
  {
    TunnelQueues(p, packet, eph);
  }

  lemma ArrivalAccounts(p: Peer, event: Event, eph: Ephemeral)
    requires event.Start? || event.HandshakeArrives? || event.DataArrives?
    requires Step(p, event, eph).Ok?
    ensures GrowsOrFlushes(p, event, Step(p, event, eph))
  {
  }

  lemma HandshakeAccounts(p: Peer, eph: Ephemeral)
    requires HandshakeStep(p, eph).Ok?
    ensures GrowsOrFlushes(p, HandshakeLoop, HandshakeStep(p, eph))
  {
    HandshakeShifts(p, eph);
  }

  lemma ReadingAccounts(p: Peer)
    ensures TakeInboundStep(p).Ok? ==> GrowsOrFlushes(p, TakeInbound, TakeInboundStep(p))
    ensures OpenStep(p).Ok? ==> GrowsOrFlushes(p, OpenInbound, OpenStep(p))
  {
  }

  lemma StepAccounts(p: Peer, event: Event, eph: Ephemeral)
    requires Step(p, event, eph).Ok? && event != TakeOutbound && event != SendOutbound
    ensures GrowsOrFlushes(p, event, Step(p, event, eph))
  {
    match event
    case HandshakeTimeout | KeepaliveTimeout | ReceiveTimeout => TimeoutAccounts(p, event, eph);
    case FromTunnel(packet) => TunnelAccounts(p, packet, eph);
    case Start | HandshakeArrives(_) | DataArrives(_) => ArrivalAccounts(p, event, eph);
    case HandshakeLoop => HandshakeAccounts(p, eph);
    case TakeInbound | OpenInbound => ReadingAccounts(p);
  }

  /** Only the inbound loop writes to the tunnel, and never an empty packet. */
  lemma StepWrites(p: Peer, event: Event, eph: Ephemeral)
    requires Step(p, event, eph).Ok? && Step(p, event, eph).written.Some?
    ensures event == OpenInbound && p.opening.Some? && p.opening.value.box.payload == Step(p, event, eph).written.value
    ensures Step(p, event, eph).written.value != []
  {
  }

  // ---------------------------------------------------------------------------------------------------------
  // Runs
  // ---------------------------------------------------------------------------------------------------------

  predicate AccountInv(n: Node) {
    && Balanced(n.accepted, n.fates, n.peer.outbound, n.peer.sending, Payloads(n.sealed))
    && (forall x | x in n.accepted :: x == [] || Routed(n.overlay, x))
  }

  predicate WriteInv(n: Node, m: Node) {
    && (forall x | x in n.written :: x != [] && x in Payloads(m.sealed))
    && m.overlay.peerIp == n.overlay.ip.addr
  }

  lemma RecordAccounts(n: Node, event: Event, o: Outcome)
    requires AccountInv(n) && o.Ok? && GrowsOrFlushes(n.peer, event, o) && !Dropped(n, event)
    requires event != TakeOutbound && event != SendOutbound
    ensures AccountInv(Record(n, event, o.peer, o.sent, o.written))
  {
    GrowthBalances(n.accepted, n.fates, n.peer.outbound, n.peer.sending, Payloads(n.sealed), Accepted(n.peer, event),
                   seq(FlushCount(n.peer, event, o.peer), _ => Flushed));
    assert n.sealed + [] == n.sealed;
  }

  lemma GrowthAccounts(n: Node, side: Side, event: Event)
    requires AccountInv(n) && Taken(n, side, event).Ok? && !Dropped(n, event)
    requires event != TakeOutbound && event != SendOutbound
    ensures AccountInv(After(n, side, event))
  {
    StepAccounts(n.peer, event, Ephemeral(side, n.drawn));
    RecordAccounts(n, event, Taken(n, side, event));
  }

  lemma TakingAccounts(n: Node, side: Side)
    requires AccountInv(n) && Taken(n, side, TakeOutbound).Ok?
    ensures AccountInv(After(n, side, TakeOutbound))
  {
    TakingBalances(n.accepted, n.fates, n.peer.outbound, Payloads(n.sealed));
    assert n.sealed + [] == n.sealed && n.accepted + [] == n.accepted;
  }

  lemma SendingAccounts(n: Node, side: Side)
    requires AccountInv(n) && Taken(n, side, SendOutbound).Ok?
    ensures AccountInv(After(n, side, SendOutbound))
  {
    var o := Taken(n, side, SendOutbound);
    var fate := if o.sent.None? then Failed else Sent;
    SendingBalances(n.accepted, n.fates, n.peer.outbound, n.peer.sending.value, Payloads(n.sealed), fate);
    assert Payloads(n.sealed + Boxes(o.sent)) ==
           Payloads(n.sealed) + if fate == Sent then [n.peer.sending.value] else [];
    assert n.accepted + [] == n.accepted;
  }

  lemma AccountKept(n: Node, side: Side, event: Event)
    requires AccountInv(n) && Taken(n, side, event).Ok? && !Dropped(n, event)
    ensures AccountInv(After(n, side, event))
  {
    match event
    case TakeOutbound => TakingAccounts(n, side);
    case SendOutbound => SendingAccounts(n, side);
    case _ => GrowthAccounts(n, side, event);
  }

  lemma WriteKept(n: Node, m: Node, side: Side, event: Event)
    requires MailInv(n, m) && WriteInv(n, m) && WriteInv(m, n) && Taken(n, side, event).Ok?
    ensures WriteInv(After(n, side, event), Receive(m, Taken(n, side, event).sent))
    ensures WriteInv(Receive(m, Taken(n, side, event).sent), After(n, side, event))
  {
    var o := Taken(n, side, event);
    assert Payloads(n.sealed + Boxes(o.sent)) == Payloads(n.sealed) + Payloads(Boxes(o.sent));
    if o.written.Some? {
      StepWrites(n.peer, event, Ephemeral(side, n.drawn));
      var d := n.peer.opening.value;
      assert Genuine(Data(d.counter, d.box), m);
      var i :| 0 <= i < |m.sealed| && m.sealed[i] == d.box;
      assert Payloads(m.sealed)[i] == o.written.value;
    }
  }

  predicate Inv(s: Sys) {
    && KeyAgreement.Inv(s)
    && AccountInv(s.west) && AccountInv(s.east)
    && WriteInv(s.west, s.east) && WriteInv(s.east, s.west)
  }

  lemma DeliveryKept(s: Sys, a: Action)
    requires Inv(s) && Apply(s, a).Some?
    ensures Inv(Apply(s, a).value)
  {
    InvKept(s, a);
    var n, m := s.At(a.side), s.At(a.side.Other());
    assert AccountInv(n) && AccountInv(m) && WriteInv(n, m) && WriteInv(m, n);
    if !Dropped(n, a.event) {
      AccountKept(n, a.side, a.event);
      WriteKept(n, m, a.side, a.event);
    }
  }

  lemma {:induction false} RunKeepsDelivery(s: Sys, actions: seq<Action>)
    requires Inv(s) && Run(s, actions).Some?
    ensures Inv(Run(s, actions).value)
    decreases |actions|
  {
    if actions != [] {
      DeliveryKept(s, actions[0]);
      RunKeepsDelivery(Apply(s, actions[0]).value, actions[1..]);
    }
  }

  lemma InitialHolds(s: Sys)
    requires Initial(s)
    ensures Inv(s)
  {
    assert KeyAgreement.Inv(s);
    assert forall side: Side :: AccountInv(s.At(side)) && WriteInv(s.At(side), s.At(side.Other()));
  }

  lemma InvAt(s: Sys, side: Side)
    requires Inv(s)
    ensures AccountInv(s.At(side)) && WriteInv(s.At(side), s.At(side.Other()))
  {
  }

  lemma DeliveryHolds(s: Sys, actions: seq<Action>, side: Side)
    requires Initial(s) && Run(s, actions).Some?
    ensures AccountInv(Run(s, actions).value.At(side))
    ensures WriteInv(Run(s, actions).value.At(side), Run(s, actions).value.At(side.Other()))
  {
    InitialHolds(s);
    RunKeepsDelivery(s, actions);
    InvAt(Run(s, actions).value, side);
  }

  /** In every run, each packet the outbound channel accepted is exactly one of sent, failed to encrypt, flushed by a
      reset, in the hands of the outbound loop, or still queued, in the order in which they were accepted; only one is
      in hand, and since it was taken others were at most flushed; and what was encrypted, in order, is what was
      sent. */
  lemma PacketsAccountedFor(s: Sys, actions: seq<Action>, side: Side)
    requires Initial(s) && Run(s, actions).Some?
    ensures var n := Run(s, actions).value.At(side);
            && |n.fates| <= |n.accepted|
            && n.accepted == n.accepted[..|n.fates|] + n.peer.outbound
            && Held(n.accepted, n.fates, n.peer.sending)
            && Payloads(n.sealed) == Kept(n.accepted[..|n.fates|], n.fates)
  {
    DeliveryHolds(s, actions, side);
  }

  lemma WrittenIsRouted(n: Node, m: Node, x: Payload)
    requires AccountInv(m) && WriteInv(n, m) && x in n.written
    ensures x != [] && x in m.accepted && Routed(m.overlay, x) && Destination(x) == n.overlay.ip.addr
  {
    KeptFrom(m.accepted[..|m.fates|], m.fates, x);
  }

  /** In every run, whatever a node writes to its tunnel is a packet the other node read from its own tunnel, sent to
      this node's overlay address, inside the other node's network and not that node's own address.  It is never a
      keepalive. */
  lemma WrittenWasRead(s: Sys, actions: seq<Action>, side: Side, x: Payload)
    requires Initial(s) && Run(s, actions).Some?
    requires x in Run(s, actions).value.At(side).written
    ensures var n, m := Run(s, actions).value.At(side), Run(s, actions).value.At(side.Other());
            && x != [] && x in m.accepted && |x| <= BUFFER_SIZE
            && Destination(x) == n.overlay.ip.addr && Destination(x) != m.overlay.ip.addr
            && m.overlay.ip.Valid() && m.overlay.ip.Contains(Destination(x))
  {
    DeliveryHolds(s, actions, side);
    DeliveryHolds(s, actions, side.Other());
    WrittenIsRouted(Run(s, actions).value.At(side), Run(s, actions).value.At(side.Other()), x);
  }

  /** The data packet in hand: what the peer does with it when it holds the packet's key, and when it does not. */
  predicate Decrypts(p: Peer)
    requires p.opening.Some?
  {
    var o, d := OpenStep(p), p.opening.value;
    && o.Ok? && p.rx.Some?
    && (p.rx.value.key == d.box.key ==>
          && o.written == (if d.box.payload == [] then None else Some(d.box.payload))
          && o.peer.receiveTimer && o.peer.raddr == d.from)
    && (p.rx.value.key != d.box.key ==>
          && o.written == None
          && o.peer == p.(opening := None, rx := o.peer.rx)
          && o.peer.rx.Some? && o.peer.rx.value.key == p.rx.value.key)
  }

  lemma NodeDecrypts(n: Node, m: Node, side: Side)
    requires NodeInv(n, m, side) && n.peer.state == 2 && n.peer.opening.Some?
    ensures Decrypts(n.peer) && n.peer.opening.value.box in m.sealed
  {
    var d := n.peer.opening.value;
    assert Genuine(Data(d.counter, d.box), m);
  }

  /** In every run, an established peer that has taken a data packet from its channel, in this session or before it,
      decrypts it, whatever it decrypted before, exactly when it holds the key of the packet; then it writes the
      payload its peer encrypted, unless that is empty.  Otherwise it writes nothing and stays as it is but for the
      nonce. */
  lemma AnyOrderDecrypts(s: Sys, actions: seq<Action>, side: Side)
    requires Initial(s) && Run(s, actions).Some?
    requires Run(s, actions).value.At(side).peer.state == 2
    requires Run(s, actions).value.At(side).peer.opening.Some?
    ensures var n, m := Run(s, actions).value.At(side), Run(s, actions).value.At(side.Other());
            Decrypts(n.peer) && n.peer.opening.value.box in m.sealed
  {
    RunKeepsInv(s, actions);
    KeyAgreement.InvAt(Run(s, actions).value, side);
    NodeDecrypts(Run(s, actions).value.At(side), Run(s, actions).value.At(side.Other()), side);
  }
}
