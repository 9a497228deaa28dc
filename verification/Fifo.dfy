/** The same two nodes over a network that loses datagrams but delivers the others in order and once.  Every run is
    a run of the general network, so all of its results apply; in addition the responder of an established session
    is still in it unless it has timed out or been reset. */
module Fifo {
  import opened Options
  import opened Symbolic
  import opened PeerMachine
  import opened Network
  import opened KeyAgreement

  datatype Link = Link(net: Sys, toWest: seq<Message>, toEast: seq<Message>)
  {
    function Queue(side: Side): seq<Message> {
      if side.West? then toWest else toEast
    }

    function WithQueue(side: Side, q: seq<Message>): Link {
      if side.West? then this.(toWest := q) else this.(toEast := q)
    }
  }

  datatype LinkAction =
    | Handler(a: Action)
    | Deliver(side: Side, from: Endpoint)
    | Lose(side: Side, i: nat)

  predicate IsArrival(event: Event) {
    event.HandshakeArrives? || event.DataArrives?
  }

  function Arrival(message: Message, from: Endpoint): Event {
    match message
    case Handshake(c, body) => HandshakeArrives(HandshakeBuffer(c, body, from))
    case Data(c, box) => DataArrives(DataBuffer(c, box, from))
  }

  /** What the other side is sent when this handler runs. */
  function SentBy(s: Sys, a: Action): seq<Message> {
    var n := s.At(a.side);
    var o := Taken(n, a.side, a.event);
    if !Dropped(n, a.event) && o.Ok? && o.sent.Some? then [o.sent.value.message] else []
  }

  /** The handler that a link action makes run, if any. */
  function HandlerOf(l: Link, la: LinkAction): Option<Action> {
    match la
    case Handler(a) => Some(a)
    case Deliver(side, from) =>
      if l.Queue(side) == [] then None else Some(Action(side, Arrival(l.Queue(side)[0], from)))
    case Lose(_, _) => None
  }

  function ApplyLink(l: Link, la: LinkAction): Option<Link> {
    match la
    case Handler(a) =>
      if IsArrival(a.event) || Apply(l.net, a).None? then None
      else
        Some(l.(net := Apply(l.net, a).value)
              .WithQueue(a.side.Other(), l.Queue(a.side.Other()) + SentBy(l.net, a)))
    case Deliver(side, from) =>
      var a := HandlerOf(l, la);
      if a.None? || Apply(l.net, a.value).None? then None
      else Some(l.(net := Apply(l.net, a.value).value).WithQueue(side, l.Queue(side)[1..]))
    case Lose(side, i) =>
      if i >= |l.Queue(side)| then None
      else Some(l.WithQueue(side, l.Queue(side)[..i] + l.Queue(side)[i + 1..]))
  }

  function RunLink(l: Link, actions: seq<LinkAction>): Option<Link>
    decreases |actions|
  {
    if actions == [] then Some(l)
    else
      match ApplyLink(l, actions[0])
      case Some(t) => RunLink(t, actions[1..])
      case None => None
  }

  /** The run of the general network that a run over the link is. */
  function Projected(l: Link, actions: seq<LinkAction>): seq<Action>
    requires RunLink(l, actions).Some?
    decreases |actions|
  {
    if actions == [] then []
    else
      (if HandlerOf(l, actions[0]).Some? then [HandlerOf(l, actions[0]).value] else [])
      + Projected(ApplyLink(l, actions[0]).value, actions[1..])
  }

  lemma {:induction false} LinkRefinesNetwork(l: Link, actions: seq<LinkAction>)
    requires RunLink(l, actions).Some?
    ensures Run(l.net, Projected(l, actions)) == Some(RunLink(l, actions).value.net)
    decreases |actions|
  {
    if actions != [] {
      var t := ApplyLink(l, actions[0]).value;
      LinkRefinesNetwork(t, actions[1..]);
      var a, rest := HandlerOf(l, actions[0]), Projected(t, actions[1..]);
      if a.Some? {
        assert ([a.value] + rest)[1..] == rest;
        assert Apply(l.net, a.value) == Some(t.net);
      } else {
        assert t.net == l.net && [] + rest == rest;
      }
    }
  }

  // ---------------------------------------------------------------------------------------------------------
  // Initiations arrive in the order they were made
  // ---------------------------------------------------------------------------------------------------------

  function InstallTrail(installs: seq<Install>): seq<nat> {
    seq(|installs|, i requires 0 <= i < |installs| => installs[i].ei.index)
  }

  function InitTrail(messages: seq<Message>): seq<nat> {
    if messages == [] then []
    else
      (if messages[0].Handshake? && messages[0].body.Init? then [messages[0].body.ei.index] else [])
      + InitTrail(messages[1..])
  }

  function ChannelMessages(hs: seq<HandshakeBuffer>): seq<Message> {
    seq(|hs|, i requires 0 <= i < |hs| => Handshake(hs[i].counter, hs[i].body))
  }

  /** The initiations `n` answered, then those waiting in its channel, then those on the wire to it. */
  function Trail(n: Node, q: seq<Message>): seq<nat> {
    InstallTrail(n.installs) + InitTrail(ChannelMessages(n.peer.handshakes) + q)
  }

  predicate Increasing(xs: seq<nat>) {
    forall i, j | 0 <= i < j < |xs| :: xs[i] < xs[j]
  }

  lemma {:induction false} InitTrailConcat(a: seq<Message>, b: seq<Message>)
    ensures InitTrail(a + b) == InitTrail(a) + InitTrail(b)
  {
    if a == [] {
      assert a + b == b;
    } else {
      assert (a + b)[1..] == a[1..] + b;
      InitTrailConcat(a[1..], b);
    }
  }

  lemma {:induction false} InitTrailFrom(messages: seq<Message>, bound: nat)
    requires forall m | m in messages && m.Handshake? && m.body.Init? :: m.body.ei.index < bound
    ensures forall x | x in InitTrail(messages) :: x < bound
  {
    if messages != [] {
      assert messages[0] in messages && forall m | m in messages[1..] :: m in messages;
      InitTrailFrom(messages[1..], bound);
    }
  }

  predicate LinkInv(n: Node, m: Node, q: seq<Message>) {
    && (forall message | message in q :: message in n.mail)
    && (forall i | i in n.installs :: i.ei in m.inits)
    && Increasing(Trail(n, q))
  }

  lemma IncreasingDrop(a: seq<nat>, b: seq<nat>, c: seq<nat>)
    requires Increasing(a + b + c)
    ensures Increasing(a + c)
  {
    var all, some := a + b + c, a + c;
    forall i, j | 0 <= i < j < |some|
      ensures some[i] < some[j]
    {
      var i', j' := if i < |a| then i else i + |b|, if j < |a| then j else j + |b|;
      assert some[i] == all[i'] && some[j] == all[j'];
    }
  }

  lemma IncreasingAppend(a: seq<nat>, x: nat)
    requires Increasing(a) && forall y | y in a :: y < x
    ensures Increasing(a + [x])
  {
    assert forall i | 0 <= i < |a| :: a[i] in a;
  }

  lemma Regroup(a: seq<nat>, b: seq<nat>, c: seq<nat>, d: seq<nat>)
    ensures a + (b + c + d) == a + b + c + d && a + (b + d) == a + b + d
  {
  }

  lemma TrailAround(trail: seq<nat>, a: seq<Message>, x: Message, c: seq<Message>)
    ensures trail + InitTrail(a + [x] + c) == trail + InitTrail(a) + InitTrail([x]) + InitTrail(c)
    ensures trail + InitTrail(a + c) == trail + InitTrail(a) + InitTrail(c)
  {
    InitTrailConcat(a + [x], c);
    InitTrailConcat(a, [x]);
    InitTrailConcat(a, c);
    Regroup(trail, InitTrail(a), InitTrail([x]), InitTrail(c));
  }

  /** Without one of the messages, the initiations are still in order. */
  lemma DropMessage(trail: seq<nat>, a: seq<Message>, x: Message, c: seq<Message>)
    requires Increasing(trail + InitTrail(a + [x] + c))
    ensures Increasing(trail + InitTrail(a + c))
  {
    TrailAround(trail, a, x, c);
    IncreasingDrop(trail + InitTrail(a), InitTrail([x]), InitTrail(c));
  }

  /** One more message keeps the order if its initiation is newer than all others. */
  lemma AddMessage(trail: seq<nat>, a: seq<Message>, x: Message, bound: nat)
    requires Increasing(trail + InitTrail(a)) && forall y | y in trail + InitTrail(a) :: y < bound
    requires x.Handshake? && x.body.Init? ==> x.body.ei.index == bound
    ensures Increasing(trail + InitTrail(a + [x]))
  {
    InitTrailConcat(a, [x]);
    if x.Handshake? && x.body.Init? {
      assert InitTrail([x]) == [bound];
      IncreasingAppend(trail + InitTrail(a), bound);
      assert trail + InitTrail(a + [x]) == trail + InitTrail(a) + [bound];
    } else {
      assert InitTrail([x]) == [];
      assert InitTrail(a + [x]) == InitTrail(a);
    }
  }

  lemma TrailParts(n: Node, q: seq<Message>)
    ensures Trail(n, q) ==
            InstallTrail(n.installs) + InitTrail(ChannelMessages(n.peer.handshakes)) + InitTrail(q)
  {
    InitTrailConcat(ChannelMessages(n.peer.handshakes), q);
  }

  /** Answering an initiation moves it from the channel to the installed sessions; reading an answer changes
      nothing. */
  lemma HandshakeMovesTrail(p: Peer, er: Ephemeral, installs: seq<Install>)
    requires Valid(p) && HandshakeStep(p, er).Ok?
    ensures var q := HandshakeStep(p, er).peer;
            InstallTrail(installs) + InitTrail(ChannelMessages(p.handshakes)) ==
            InstallTrail(installs + if Installs(p, HandshakeLoop) then InstallOf(q) else [])
            + InitTrail(ChannelMessages(q.handshakes))
  {
    var q, h := HandshakeStep(p, er).peer, p.handshakes[0];
    StepExplained(p, HandshakeLoop, er);
    assert ChannelMessages(p.handshakes) == [Handshake(h.counter, h.body)] + ChannelMessages(q.handshakes);
    if Installs(p, HandshakeLoop) {
      assert InstallOf(q) == [Agreed(h.body.ei, er)];
      assert InstallTrail(installs + InstallOf(q)) == InstallTrail(installs) + [h.body.ei.index];
    } else {
      assert installs + [] == installs;
    }
  }

  /** The other handlers leave the channel alone or empty it. */
  lemma OthersKeepChannel(p: Peer, event: Event, eph: Ephemeral)
    requires Step(p, event, eph).Ok? && !IsArrival(event) && event != HandshakeLoop
    ensures Step(p, event, eph).peer.handshakes == p.handshakes || Step(p, event, eph).peer.handshakes == []
  {
    match event
    case HandshakeTimeout | KeepaliveTimeout | ReceiveTimeout => ChannelsOfTimeout(p, event, eph);
    case _ =>
  }

  lemma HandlerKeepsTrail(n: Node, side: Side, event: Event, q: seq<Message>)
    requires Valid(n.peer) && Taken(n, side, event).Ok? && !IsArrival(event)
    requires Increasing(Trail(n, q))
    ensures Increasing(Trail(After(n, side, event), q))
  {
    var eph, after := Ephemeral(side, n.drawn), After(n, side, event);
    TrailParts(n, q);
    TrailParts(after, q);
    if event == HandshakeLoop {
      HandshakeMovesTrail(n.peer, eph, n.installs);
    } else {
      OthersKeepChannel(n.peer, event, eph);
      assert after.installs == n.installs;
      if after.peer.handshakes == [] {
        assert InitTrail(ChannelMessages(after.peer.handshakes)) == [];
        IncreasingDrop(InstallTrail(n.installs), InitTrail(ChannelMessages(n.peer.handshakes)), InitTrail(q));
        assert InstallTrail(n.installs) + [] == InstallTrail(n.installs);
      }
    }
  }

  /** Whatever was sent to a node bears an ephemeral its peer has drawn. */
  lemma TrailBelow(n: Node, m: Node, side: Side, q: seq<Message>)
    requires MailInv(n, m) && FreshInv(m, side.Other()) && LinkInv(n, m, q)
    ensures forall x | x in Trail(n, q) :: x < m.drawn
  {
    var messages := ChannelMessages(n.peer.handshakes) + q;
    forall message | message in messages && message.Handshake? && message.body.Init?
      ensures message.body.ei.index < m.drawn
    {
      assert message in n.mail && Genuine(message, m);
    }
    InitTrailFrom(messages, m.drawn);
    forall x | x in Trail(n, q)
      ensures x < m.drawn
    {
      if x in InstallTrail(n.installs) {
        var i :| 0 <= i < |n.installs| && x == InstallTrail(n.installs)[i];
        assert n.installs[i] in n.installs;
      }
    }
  }

  /** The channel and the wire after a delivery: the head of the wire moves to the channel or is dropped. */
  lemma DeliveryKeepsTrail(n: Node, side: Side, from: Endpoint, q: seq<Message>)
    requires q != [] && Taken(n, side, Arrival(q[0], from)).Ok?
    requires Increasing(Trail(n, q))
    ensures Increasing(Trail(After(n, side, Arrival(q[0], from)), q[1..]))
  {
    var after := After(n, side, Arrival(q[0], from));
    var waiting := ChannelMessages(n.peer.handshakes);
    assert after.installs == n.installs;
    assert q == [q[0]] + q[1..];
    if after.peer.handshakes == n.peer.handshakes {
      assert waiting + q == waiting + [q[0]] + q[1..];
      DropMessage(InstallTrail(n.installs), waiting, q[0], q[1..]);
    } else {
      assert ChannelMessages(after.peer.handshakes) == waiting + [q[0]];
      assert waiting + q == waiting + [q[0]] + q[1..];
    }
  }

  lemma LossKeepsTrail(n: Node, q: seq<Message>, i: nat)
    requires i < |q| && Increasing(Trail(n, q))
    ensures Increasing(Trail(n, q[..i] + q[i + 1..]))
  {
    var rest, waiting := q[..i] + q[i + 1..], ChannelMessages(n.peer.handshakes);
    assert waiting + q == waiting + q[..i] + [q[i]] + q[i + 1..];
    assert waiting + rest == waiting + q[..i] + q[i + 1..];
    DropMessage(InstallTrail(n.installs), waiting + q[..i], q[i], q[i + 1..]);
  }

  /** What a handler puts on the wire is newer than anything before it. */
  lemma SendKeepsTrail(n: Node, m: Node, side: Side, event: Event, q: seq<Message>)
    requires NodeInv(m, n, side.Other()) && FreshInv(n, side) && Valid(n.peer) && LinkInv(m, n, q)
    requires Taken(n, side, event).Ok?
    ensures var sent := Taken(n, side, event).sent;
            Increasing(Trail(Receive(m, sent), q + if sent.Some? then [sent.value.message] else []))
  {
    var sent := Taken(n, side, event).sent;
    StepExplained(n.peer, event, Ephemeral(side, n.drawn));
    if sent.Some? {
      var message, waiting := sent.value.message, ChannelMessages(m.peer.handshakes);
      TrailBelow(m, n, side.Other(), q);
      AddMessage(InstallTrail(m.installs), waiting + q, message, n.drawn);
      assert waiting + (q + [message]) == waiting + q + [message];
    } else {
      assert q + [] == q;
    }
  }

  lemma InstallsAreAnswers(n: Node, m: Node, side: Side, event: Event)
    requires NodeInv(n, m, side) && Taken(n, side, event).Ok?
    requires forall i | i in n.installs :: i.ei in m.inits
    ensures forall i | i in After(n, side, event).installs :: i.ei in m.inits
  {
    StepExplained(n.peer, event, Ephemeral(side, n.drawn));
    if Installs(n.peer, event) {
      var h := n.peer.handshakes[0];
      assert Genuine(Handshake(h.counter, h.body), m);
    }
  }

  predicate InvLink(l: Link) {
    && KeyAgreement.Inv(l.net)
    && LinkInv(l.net.west, l.net.east, l.toWest)
    && LinkInv(l.net.east, l.net.west, l.toEast)
  }

  lemma HandlerKeepsOwnLink(n: Node, m: Node, side: Side, event: Event, qn: seq<Message>)
    requires NodeInv(n, m, side) && LinkInv(n, m, qn) && Taken(n, side, event).Ok? && !IsArrival(event)
    ensures LinkInv(After(n, side, event), Receive(m, Taken(n, side, event).sent), qn)
  {
    HandlerKeepsTrail(n, side, event, qn);
    InstallsAreAnswers(n, m, side, event);
  }

  lemma HandlerKeepsOtherLink(n: Node, m: Node, side: Side, event: Event, qm: seq<Message>)
    requires NodeInv(n, m, side) && NodeInv(m, n, side.Other()) && LinkInv(m, n, qm) && Taken(n, side, event).Ok?
    ensures var sent := Taken(n, side, event).sent;
            LinkInv(Receive(m, sent), After(n, side, event), qm + if sent.Some? then [sent.value.message] else [])
  {
    SendKeepsTrail(n, m, side, event, qm);
  }

  lemma HandlerKeepsLink(n: Node, m: Node, side: Side, event: Event, qn: seq<Message>, qm: seq<Message>)
    requires NodeInv(n, m, side) && NodeInv(m, n, side.Other())
    requires LinkInv(n, m, qn) && LinkInv(m, n, qm)
    requires Taken(n, side, event).Ok? && !IsArrival(event)
    ensures var sent := Taken(n, side, event).sent;
            && LinkInv(After(n, side, event), Receive(m, sent), qn)
            && LinkInv(Receive(m, sent), After(n, side, event), qm + if sent.Some? then [sent.value.message] else [])
  {
    HandlerKeepsOwnLink(n, m, side, event, qn);
    HandlerKeepsOtherLink(n, m, side, event, qm);
  }

  lemma ArrivalSendsNothing(n: Node, side: Side, event: Event)
    requires IsArrival(event) && Taken(n, side, event).Ok?
    ensures Taken(n, side, event).sent.None? && After(n, side, event).inits == n.inits
    ensures After(n, side, event).installs == n.installs && After(n, side, event).mail == n.mail
  {
  }

  lemma InvLinkOfSides(l: Link, side: Side)
    requires KeyAgreement.Inv(l.net)
    requires LinkInv(l.net.At(side), l.net.At(side.Other()), l.Queue(side))
    requires LinkInv(l.net.At(side.Other()), l.net.At(side), l.Queue(side.Other()))
    ensures InvLink(l)
  {
  }

  lemma InvLinkAt(l: Link, side: Side)
    requires InvLink(l)
    ensures LinkInv(l.net.At(side), l.net.At(side.Other()), l.Queue(side))
    ensures LinkInv(l.net.At(side.Other()), l.net.At(side), l.Queue(side.Other()))
  {
  }

  lemma HandlerKept(l: Link, a: Action)
    requires InvLink(l) && ApplyLink(l, Handler(a)).Some?
    ensures InvLink(ApplyLink(l, Handler(a)).value)
  {
    var n, m := l.net.At(a.side), l.net.At(a.side.Other());
    var qn, qm := l.Queue(a.side), l.Queue(a.side.Other());
    InvKept(l.net, a);
    InvLinkAt(l, a.side);
    if Dropped(n, a.event) {
      assert qm + [] == qm;
    } else {
      InvAt(l.net, a.side);
      HandlerKeepsLink(n, m, a.side, a.event, qn, qm);
    }
    InvLinkOfSides(ApplyLink(l, Handler(a)).value, a.side);
  }

  lemma DeliveryKept(l: Link, side: Side, from: Endpoint)
    requires InvLink(l) && ApplyLink(l, Deliver(side, from)).Some?
    ensures InvLink(ApplyLink(l, Deliver(side, from)).value)
  {
    var n, m := l.net.At(side), l.net.At(side.Other());
    var q := l.Queue(side);
    var event := Arrival(q[0], from);
    InvKept(l.net, Action(side, event));
    InvLinkAt(l, side);
    ArrivalSendsNothing(n, side, event);
    DeliveryKeepsTrail(n, side, from, q);
    assert LinkInv(After(n, side, event), m, q[1..]);
    assert LinkInv(m, After(n, side, event), l.Queue(side.Other()));
    InvLinkOfSides(ApplyLink(l, Deliver(side, from)).value, side);
  }

  lemma QueueReplaced(l: Link, side: Side, q: seq<Message>)
    requires InvLink(l) && LinkInv(l.net.At(side), l.net.At(side.Other()), q)
    ensures InvLink(l.WithQueue(side, q))
  {
  }

  lemma LossKept(l: Link, side: Side, i: nat)
    requires InvLink(l) && ApplyLink(l, Lose(side, i)).Some?
    ensures InvLink(ApplyLink(l, Lose(side, i)).value)
  {
    InvLinkAt(l, side);
    LossKeepsTrail(l.net.At(side), l.Queue(side), i);
    QueueReplaced(l, side, l.Queue(side)[..i] + l.Queue(side)[i + 1..]);
  }

  lemma LinkInvKept(l: Link, la: LinkAction)
    requires InvLink(l) && ApplyLink(l, la).Some?
    ensures InvLink(ApplyLink(l, la).value)
  {
    match la
    case Handler(a) => HandlerKept(l, a);
    case Deliver(side, from) => DeliveryKept(l, side, from);
    case Lose(side, i) => LossKept(l, side, i);
  }

  lemma {:induction false} RunKeepsLink(l: Link, actions: seq<LinkAction>)
    requires InvLink(l) && RunLink(l, actions).Some?
    ensures InvLink(RunLink(l, actions).value)
    decreases |actions|
  {
    if actions != [] {
      LinkInvKept(l, actions[0]);
      RunKeepsLink(ApplyLink(l, actions[0]).value, actions[1..]);
    }
  }

  predicate InitialLink(l: Link) {
    Initial(l.net) && l.toWest == [] && l.toEast == []
  }

  lemma FreshLink(n: Node, m: Node)
    requires n == NewNode(n.overlay, n.peer.raddr)
    ensures LinkInv(n, m, [])
  {
    assert Trail(n, []) == [];
  }

  lemma FreshNode(n: Node, m: Node, side: Side)
    requires n == NewNode(n.overlay, n.peer.raddr)
    ensures NodeInv(n, m, side)
  {
  }

  lemma InitialHolds(l: Link)
    requires InitialLink(l)
    ensures InvLink(l)
  {
    var west, east := l.net.west, l.net.east;
    FreshNode(west, east, West);
    FreshNode(east, west, East);
    FreshLink(west, east);
    FreshLink(east, west);
    assert KeyAgreement.Inv(l.net);
  }

  lemma InstallsIncrease(n: Node, q: seq<Message>, i: nat, j: nat)
    requires Increasing(Trail(n, q)) && i < |n.installs| && j < |n.installs|
    ensures i < j ==> n.installs[i].ei.index < n.installs[j].ei.index
  {
    assert Trail(n, q)[i] == n.installs[i].ei.index && Trail(n, q)[j] == n.installs[j].ei.index;
  }

  /** No responder answers an initiation older than one it has answered. */
  lemma NewestIsLast(n: Node, m: Node, q: seq<Message>, side: Side, ei: Ephemeral, er: Ephemeral)
    requires LinkInv(n, m, q) && FreshInv(m, side.Other())
    requires LastInit(m) == Some(ei) && Agreed(ei, er) in n.installs
    ensures LastInstall(n) == Some(Agreed(ei, er))
  {
    var k :| 0 <= k < |n.installs| && n.installs[k] == Agreed(ei, er);
    var last := |n.installs| - 1;
    assert n.installs[last].ei in m.inits;
    InstallsIncrease(n, q, k, last);
  }

  /** While a responder has neither timed out nor been reset, it is in the session it installed last. */
  lemma LiveIsLast(n: Node, m: Node)
    requires SessionInv(n, m) && n.live && LastInstall(n).Some?
    ensures n.peer.state == 2 && !n.peer.initiator && InstallOf(n.peer) == [LastInstall(n).value]
  {
  }

  lemma LiveEndsInOneStep(n: Node, m: Node, side: Side, event: Event)
    requires SessionInv(n, m) && n.live && Taken(n, side, event).Ok?
    ensures !After(n, side, event).live ==> event == ReceiveTimeout
  {
    StateOfStep(n.peer, event, Ephemeral(side, n.drawn));
  }

  lemma LiveEndsInNetwork(s: Sys, a: Action, side: Side)
    requires KeyAgreement.Inv(s) && Apply(s, a).Some?
    requires s.At(side).live && !Apply(s, a).value.At(side).live
    ensures a == Action(side, ReceiveTimeout)
  {
    InvAt(s, side);
    if a.side == side && !Dropped(s.At(side), a.event) {
      LiveEndsInOneStep(s.At(side), s.At(side.Other()), side, a.event);
    }
  }

  /** A link action does to the nodes what its handler does. */
  lemma NetworkOfLink(l: Link, la: LinkAction)
    requires ApplyLink(l, la).Some?
    ensures match HandlerOf(l, la)
            case Some(a) => Apply(l.net, a) == Some(ApplyLink(l, la).value.net)
            case None => ApplyLink(l, la).value.net == l.net
  {
  }

  lemma LiveEndsOnLink(l: Link, la: LinkAction, side: Side)
    requires KeyAgreement.Inv(l.net) && ApplyLink(l, la).Some?
    requires l.net.At(side).live && !ApplyLink(l, la).value.net.At(side).live
    ensures la == Handler(Action(side, ReceiveTimeout))
  {
    NetworkOfLink(l, la);
    LiveEndsInNetwork(l.net, HandlerOf(l, la).value, side);
  }

  /** In every run over the link, the only step that ends this is the responder's own receive timeout. */
  lemma LiveEndsByTimeout(l: Link, actions: seq<LinkAction>, la: LinkAction, side: Side)
    requires InitialLink(l) && RunLink(l, actions).Some? && RunLink(l, actions).value.net.At(side).live
    requires ApplyLink(RunLink(l, actions).value, la).Some?
    requires !ApplyLink(RunLink(l, actions).value, la).value.net.At(side).live
    ensures la == Handler(Action(side, ReceiveTimeout))
  {
    InitialHolds(l);
    RunKeepsLink(l, actions);
    LiveEndsOnLink(RunLink(l, actions).value, la, side);
  }

  /** In every run over the link, the session of an established initiator is the last one its remote peer installed as
      a responder, and unless that peer has timed out since, it still uses it: each decrypts with what the other
      encrypts with. */
  lemma ResponderStillAgrees(l: Link, actions: seq<LinkAction>, side: Side)
    requires InitialLink(l) && RunLink(l, actions).Some?
    requires RunLink(l, actions).value.net.At(side).peer.state == 2
    requires RunLink(l, actions).value.net.At(side).peer.initiator
    ensures var net := RunLink(l, actions).value.net;
            var p, m := net.At(side).peer, net.At(side.Other());
            && p.tx.Some? && p.rx.Some?
            && var ei, er := p.tx.value.key.initiator, p.tx.value.key.responder;
            && LastInstall(m) == Some(Install(ei, er, p.rx.value.key, p.tx.value.key))
            && (m.live ==>
                  && m.peer.state == 2 && !m.peer.initiator && m.peer.tx.Some? && m.peer.rx.Some?
                  && m.peer.tx.value.key == p.rx.value.key && m.peer.rx.value.key == p.tx.value.key)
  {
    InitialHolds(l);
    RunKeepsLink(l, actions);
    var t := RunLink(l, actions).value;
    var n, m := t.net.At(side), t.net.At(side.Other());
    var ei, er := n.peer.tx.value.key.initiator, n.peer.tx.value.key.responder;
    assert NodeInv(n, m, side) && NodeInv(m, n, side.Other()) && LinkInv(m, n, t.Queue(side.Other()));
    NewestIsLast(m, n, t.Queue(side.Other()), side.Other(), ei, er);
    if m.live {
      LiveIsLast(m, n);
    }
  }

  /** In every run over the link, a responder answers initiations in the order in which they were made, and none
      twice. */
  lemma AnsweredInOrder(l: Link, actions: seq<LinkAction>, side: Side, i: nat, j: nat)
    requires InitialLink(l) && RunLink(l, actions).Some?
    requires i < j < |RunLink(l, actions).value.net.At(side).installs|
    ensures var n, m := RunLink(l, actions).value.net.At(side), RunLink(l, actions).value.net.At(side.Other());
            && n.installs[i].ei.index < n.installs[j].ei.index
            && n.installs[i].ei in m.inits && n.installs[j].ei in m.inits
  {
    InitialHolds(l);
    RunKeepsLink(l, actions);
    var t := RunLink(l, actions).value;
    var n, m := t.net.At(side), t.net.At(side.Other());
    assert LinkInv(n, m, t.Queue(side));
    InstallsIncrease(n, t.Queue(side), i, j);
    assert n.installs[i] in n.installs && n.installs[j] in n.installs;
  }

  // ---------------------------------------------------------------------------------------------------------
  // The link
  // ---------------------------------------------------------------------------------------------------------

  /** What a handler sends joins the end of the queue to the other side, a delivery takes the head of its queue to its
      node, a loss takes one message away; and nothing else happens to the queues. */
  lemma LinkEffect(l: Link, la: LinkAction)
    requires ApplyLink(l, la).Some?
    ensures var t := ApplyLink(l, la).value;
            match la
            case Handler(a) =>
              && t.Queue(a.side) == l.Queue(a.side)
              && t.Queue(a.side.Other()) == l.Queue(a.side.Other()) +
                 (if Dropped(l.net.At(a.side), a.event) || Taken(l.net.At(a.side), a.side, a.event).sent.None? then []
                  else [Taken(l.net.At(a.side), a.side, a.event).sent.value.message])
            case Deliver(side, from) =>
              && l.Queue(side) != [] && t.Queue(side.Other()) == l.Queue(side.Other())
              && l.Queue(side) == [l.Queue(side)[0]] + t.Queue(side)
              && Apply(l.net, Action(side, Arrival(l.Queue(side)[0], from))) == Some(t.net)
            case Lose(side, i) =>
              && i < |l.Queue(side)| && t.net == l.net && t.Queue(side.Other()) == l.Queue(side.Other())
              && l.Queue(side) == t.Queue(side)[..i] + [l.Queue(side)[i]] + t.Queue(side)[i..]
  {
  }
}
