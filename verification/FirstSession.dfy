/** How two new nodes come to a session when the western one has a packet to send: the run that the examples begin
    with. */
module FirstSession {
  import opened Options
  import opened Bytes
  import opened Blocks
  import opened Symbolic
  import opened Netip
  import opened PeerMachine
  import opened Network

  lemma {:induction false} Then(s: Sys, actions: seq<Action>, t: Sys, a: Action)
    requires Run(s, actions) == Some(t) && Apply(t, a).Some?
    ensures Run(s, actions + [a]) == Apply(t, a)
    decreases |actions|
  {
    if actions == [] {
      assert actions + [a] == [a] && [a][1..] == [];
    } else {
      assert (actions + [a])[1..] == actions[1..] + [a];
      Then(Apply(s, actions[0]).value, actions[1..], t, a);
    }
  }

  /** Two new nodes in the same /24 network. */
  function Pair(): Sys {
    Sys(NewNode(Overlay(Prefix(1, 24), 2), 0), NewNode(Overlay(Prefix(2, 24), 1), 0))
  }

  /** A packet to the last byte's address. */
  function PacketTo(last: Byte): Payload {
    Zeros(19) + [last]
  }

  lemma {:induction false} NumberOfZeros(n: nat)
    ensures Number(Zeros(n)) == 0
  {
    if n > 0 {
      assert Zeros(n)[..n - 1] == Zeros(n - 1);
      NumberOfZeros(n - 1);
    }
  }

  lemma DestinationIs(last: Byte)
    ensures Destination(PacketTo(last)) == last && |PacketTo(last)| == 20
  {
    var p := PacketTo(last);
    NumberOfZeros(3);
    var field := Zeros(3) + [last];
    assert [ByteAt(p, 16), ByteAt(p, 17), ByteAt(p, 18), ByteAt(p, 19)] == field;
    assert field[..|field| - 1] == Zeros(3);
  }

  lemma Routable()
    ensures Initial(Pair())
    ensures Routed(Pair().west.overlay, PacketTo(2)) && Routed(Pair().east.overlay, PacketTo(1))
  {
    ContainsByLeading(Prefix(1, 24), 2);
    ContainsByLeading(Prefix(2, 24), 1);
    DestinationIs(1);
    DestinationIs(2);
  }

  predicate Started(p: Peer) {
    p == NewPeer(p.raddr).(running := true, locked := true)
  }

  function First(side: Side): Ephemeral {
    Ephemeral(side, 1)
  }

  /** Waiting for the answer to the first initiation, with one packet queued. */
  predicate Waiting(p: Peer, w: Payload) {
    && p.state == 1 && p.running && p.locked && p.initiator && p.handshakes == [] && p.hs == Initiating(First(West))
    && p.outbound == [w] && p.sending.None?
  }

  /** In the session as its initiator, the packet still queued. */
  predicate Initiator(p: Peer, w: Payload, er: Ephemeral) {
    && p.state == 2 && p.running && !p.locked && p.initiator && p.handshakes == [] && p.hs == NoHandshake
    && p.outbound == [w] && p.sending.None? && p.tx == Some(Cipher(Key(First(West), er, ToResponder), 0))
  }

  /** In the session as its responder. */
  predicate Responder(p: Peer, er: Ephemeral) {
    && p.state == 2 && p.running && !p.locked && !p.initiator
    && p.inbound == [] && p.opening.None? && p.rx == Some(Cipher(Key(First(West), er, ToResponder), 0))
  }

  lemma BothStarted(s: Sys) returns (actions: seq<Action>, t: Sys)
    requires Initial(s)
    ensures Run(s, actions) == Some(t) && t.west.overlay == s.west.overlay && t.east.overlay == s.east.overlay
    ensures Started(t.west.peer) && t.west.drawn == 1 && Started(t.east.peer) && t.east.drawn == 1
    ensures t.east.written == []
  {
    var a, b := Action(West, Start), Action(East, Start);
    Then(s, [], s, a);
    actions, t := [] + [a], Apply(s, a).value;
    Then(s, actions, t, b);
    actions, t := actions + [b], Apply(t, b).value;
  }

  /** The western peer has sent an initiation, which is in the other one's mail. */
  lemma Initiated(s: Sys, w: Payload) returns (actions: seq<Action>, t: Sys)
    requires Initial(s) && Routed(s.west.overlay, w)
    ensures Run(s, actions) == Some(t) && t.west.overlay == s.west.overlay && t.east.overlay == s.east.overlay
    ensures Waiting(t.west.peer, w) && Started(t.east.peer) && t.east.drawn == 1 && t.east.written == []
    ensures Handshake(0, Init(First(West))) in t.east.mail
  {
    actions, t := BothStarted(s);
    var a := Action(West, FromTunnel(w));
    Then(s, actions, t, a);
    actions, t := actions + [a], Apply(t, a).value;
  }

  lemma Queued(q: Peer, h: HandshakeBuffer, eph: Ephemeral)
    requires Started(q)
    ensures Step(q, HandshakeArrives(h), eph) == Ok(q.(handshakes := [h]), None, None)
  {
  }

  lemma InitiationDelivered(s: Sys, w: Payload) returns (actions: seq<Action>, t: Sys)
    requires Initial(s) && Routed(s.west.overlay, w)
    ensures Run(s, actions) == Some(t) && Waiting(t.west.peer, w) && t.east.written == []
    ensures var q := t.east.peer;
            Started(q.(handshakes := [])) && q.handshakes == [HandshakeBuffer(0, Init(First(West)), 0)]
  {
    actions, t := Initiated(s, w);
    var h := HandshakeBuffer(0, Init(First(West)), 0);
    var a := Action(East, HandshakeArrives(h));
    Queued(t.east.peer, h, Ephemeral(East, t.east.drawn));
    Then(s, actions, t, a);
    actions, t := actions + [a], Apply(t, a).value;
  }

  lemma InitiationIsRead(q: Peer, er: Ephemeral)
    requires Started(q.(handshakes := [])) && q.handshakes == [HandshakeBuffer(0, Init(First(West)), 0)]
    ensures Step(q, HandshakeLoop, er).Ok? && Responder(Step(q, HandshakeLoop, er).peer, er)
    ensures Step(q, HandshakeLoop, er).sent == Some(Datagram(0, Handshake(1, Resp(First(West), er))))
    ensures Step(q, HandshakeLoop, er).written.None?
  {
  }

  /** The western initiation is answered; the answer is in the initiator's mail. */
  lemma Answered(s: Sys, w: Payload) returns (actions: seq<Action>, t: Sys, er: Ephemeral)
    requires Initial(s) && Routed(s.west.overlay, w)
    ensures Run(s, actions) == Some(t) && Waiting(t.west.peer, w) && Responder(t.east.peer, er)
    ensures Handshake(1, Resp(First(West), er)) in t.west.mail && t.east.written == []
  {
    actions, t := InitiationDelivered(s, w);
    var a := Action(East, HandshakeLoop);
    er := Ephemeral(East, t.east.drawn);
    InitiationIsRead(t.east.peer, er);
    Then(s, actions, t, a);
    actions, t := actions + [a], Apply(t, a).value;
  }

  /** The network brings a message of its mail to the western peer. */
  lemma Delivered(s: Sys, actions: seq<Action>, t: Sys, h: HandshakeBuffer) returns (more: seq<Action>, u: Sys)
    requires Run(s, actions) == Some(t) && t.west.peer.running && t.west.peer.handshakes == []
    requires Handshake(h.counter, h.body) in t.west.mail
    ensures Run(s, more) == Some(u) && u.west.peer == t.west.peer.(handshakes := [h]) && u.west.mail == t.west.mail
    ensures u.east == t.east
  {
    var a := Action(West, HandshakeArrives(h));
    Then(s, actions, t, a);
    more, u := actions + [a], Apply(t, a).value;
  }

  lemma AnswerIsRead(p: Peer, w: Payload, er: Ephemeral, eph: Ephemeral)
    requires Waiting(p.(handshakes := []), w) && p.handshakes == [HandshakeBuffer(1, Resp(First(West), er), 0)]
    ensures Step(p, HandshakeLoop, eph).Ok? && Initiator(Step(p, HandshakeLoop, eph).peer, w, er)
    ensures Step(p, HandshakeLoop, eph).sent.None?
  {
  }

  /** And the initiator has read it: both are in the session. */
  lemma BothEstablished(s: Sys, w: Payload) returns (actions: seq<Action>, t: Sys, er: Ephemeral)
    requires Initial(s) && Routed(s.west.overlay, w)
    ensures Run(s, actions) == Some(t) && Handshake(1, Resp(First(West), er)) in t.west.mail
    ensures Initiator(t.west.peer, w, er) && Responder(t.east.peer, er) && t.east.written == []
  {
    actions, t, er := Answered(s, w);
    actions, t := Delivered(s, actions, t, HandshakeBuffer(1, Resp(First(West), er), 0));
    AnswerIsRead(t.west.peer, w, er, Ephemeral(West, t.west.drawn));
    var a := Action(West, HandshakeLoop);
    Then(s, actions, t, a);
    actions, t := actions + [a], Apply(t, a).value;
  }
}
