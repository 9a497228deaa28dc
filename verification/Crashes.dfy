/** Runs in which a node crashes: initiations that cross, and an answer that arrives twice. */
module Crashes {
  import opened Options
  import opened Symbolic
  import opened PeerMachine
  import opened Network
  import opened FirstSession

  lemma Indigestible(n: Node)
    requires n.peer.handshakes != [] && !Acceptable(n.peer, n.peer.handshakes[0])
    requires n.peer.state == 2 ==> !n.peer.locked
    ensures Taken(n, West, HandshakeLoop).Crash?
  {
  }

  lemma BothInitiated(s: Sys, w: Payload, x: Payload) returns (actions: seq<Action>, t: Sys)
    requires Initial(s) && Routed(s.west.overlay, w) && Routed(s.east.overlay, x)
    ensures Run(s, actions) == Some(t)
    ensures Waiting(t.west.peer, w) && Handshake(0, Init(First(East))) in t.west.mail
  {
    actions, t := Initiated(s, w);
    var a := Action(East, FromTunnel(x));
    Then(s, actions, t, a);
    actions, t := actions + [a], Apply(t, a).value;
  }

  /** Both nodes have a packet for the other one and send an initiation: whoever reads the other's crashes. */
  lemma CrossedInitiationsCrash(s: Sys, w: Payload, x: Payload) returns (actions: seq<Action>)
    requires Initial(s) && Routed(s.west.overlay, w) && Routed(s.east.overlay, x)
    ensures Run(s, actions).Some? && Taken(Run(s, actions).value.west, West, HandshakeLoop).Crash?
  {
    var t;
    actions, t := BothInitiated(s, w, x);
    actions, t := Delivered(s, actions, t, HandshakeBuffer(0, Init(First(East)), 0));
    Indigestible(t.west);
  }

  /** An answer that the network delivers twice: the second one crashes the initiator. */
  lemma RepeatedAnswerCrashes(s: Sys, w: Payload) returns (actions: seq<Action>)
    requires Initial(s) && Routed(s.west.overlay, w)
    ensures Run(s, actions).Some? && Taken(Run(s, actions).value.west, West, HandshakeLoop).Crash?
  {
    var t, er;
    actions, t, er := BothEstablished(s, w);
    actions, t := Delivered(s, actions, t, HandshakeBuffer(1, Resp(First(West), er), 0));
    Indigestible(t.west);
  }

  /** Both happen to the two nodes of Pair. */
  lemma PairCrashes() returns (crossed: seq<Action>, repeated: seq<Action>)
    ensures Initial(Pair())
    ensures Run(Pair(), crossed).Some? && Taken(Run(Pair(), crossed).value.west, West, HandshakeLoop).Crash?
    ensures Run(Pair(), repeated).Some? && Taken(Run(Pair(), repeated).value.west, West, HandshakeLoop).Crash?
  {
    Routable();
    crossed := CrossedInitiationsCrash(Pair(), PacketTo(2), PacketTo(1));
    repeated := RepeatedAnswerCrashes(Pair(), PacketTo(2));
  }
}
