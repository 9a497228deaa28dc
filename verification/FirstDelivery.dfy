/** A packet that goes all the way, from one tunnel to the other. */
module FirstDelivery {
  import opened Options
  import opened Symbolic
  import opened PeerMachine
  import opened Network
  import opened FirstSession

  function Box(w: Payload, er: Ephemeral): Sealed {
    Sealed(Key(First(West), er, ToResponder), 0, w)
  }

  lemma Taking(p: Peer, w: Payload, er: Ephemeral, eph: Ephemeral)
    requires Initiator(p, w, er)
    ensures Step(p, TakeOutbound, eph) == Ok(p.(outbound := [], sending := Some(w)), None, None)
  {
  }

  lemma Sending(p: Peer, w: Payload, er: Ephemeral, eph: Ephemeral)
    requires Initiator(p.(outbound := [w], sending := None), w, er) && p.sending == Some(w)
    ensures var o := Step(p, SendOutbound, eph);
            && o.Ok? && o.sent == Some(Datagram(p.raddr, Data(0, Box(w, er)))) && o.written.None?
            && o.peer.state == 2 && o.peer.initiator
  {
  }

  lemma PacketInHand(s: Sys, w: Payload) returns (actions: seq<Action>, t: Sys, er: Ephemeral)
    requires Initial(s) && Routed(s.west.overlay, w)
    ensures Run(s, actions) == Some(t) && Responder(t.east.peer, er) && t.east.written == []
    ensures Initiator(t.west.peer.(outbound := [w], sending := None), w, er) && t.west.peer.sending == Some(w)
  {
    actions, t, er := BothEstablished(s, w);
    Taking(t.west.peer, w, er, Ephemeral(West, t.west.drawn));
    Then(s, actions, t, Action(West, TakeOutbound));
    actions, t := actions + [Action(West, TakeOutbound)], Apply(t, Action(West, TakeOutbound)).value;
  }

  /** The packet is on its way. */
  lemma PacketSent(s: Sys, w: Payload) returns (actions: seq<Action>, t: Sys, er: Ephemeral)
    requires Initial(s) && Routed(s.west.overlay, w)
    ensures Run(s, actions) == Some(t) && t.west.peer.state == 2 && t.west.peer.initiator
    ensures Responder(t.east.peer, er) && Data(0, Box(w, er)) in t.east.mail && t.east.written == []
  {
    actions, t, er := PacketInHand(s, w);
    Sending(t.west.peer, w, er, Ephemeral(West, t.west.drawn));
    Then(s, actions, t, Action(West, SendOutbound));
    actions, t := actions + [Action(West, SendOutbound)], Apply(t, Action(West, SendOutbound)).value;
  }

  function Buffered(w: Payload, er: Ephemeral): DataBuffer {
    DataBuffer(0, Box(w, er), 0)
  }

  lemma Receiving(q: Peer, w: Payload, er: Ephemeral, eph: Ephemeral)
    requires Responder(q, er)
    ensures Step(q, DataArrives(Buffered(w, er)), eph) == Ok(q.(inbound := [Buffered(w, er)]), None, None)
    ensures Step(q.(inbound := [Buffered(w, er)]), TakeInbound, eph) ==
            Ok(q.(opening := Some(Buffered(w, er))), None, None)
  {
  }

  lemma Opening(q: Peer, w: Payload, er: Ephemeral, eph: Ephemeral)
    requires Responder(q, er) && w != []
    ensures var o := Step(q.(opening := Some(Buffered(w, er))), OpenInbound, eph);
            o.Ok? && o.sent.None? && o.written == Some(w) && o.peer.state == 2 && !o.peer.initiator
  {
  }

  /** It is in the hands of the eastern peer's inbound loop. */
  lemma PacketTaken(s: Sys, w: Payload) returns (actions: seq<Action>, t: Sys, er: Ephemeral, q: Peer)
    requires Initial(s) && Routed(s.west.overlay, w)
    ensures Run(s, actions) == Some(t) && t.west.peer.state == 2 && t.west.peer.initiator
    ensures Responder(q, er) && t.east.peer == q.(opening := Some(Buffered(w, er))) && t.east.written == []
  {
    actions, t, er := PacketSent(s, w);
    q := t.east.peer;
    var eph := Ephemeral(East, t.east.drawn);
    Receiving(q, w, er, eph);
    Receiving(q, w, er, Ephemeral(East, t.east.drawn + 1));
    var a := Action(East, DataArrives(Buffered(w, er)));
    Then(s, actions, t, a);
    actions, t := actions + [a], Apply(t, a).value;
    Then(s, actions, t, Action(East, TakeInbound));
    actions, t := actions + [Action(East, TakeInbound)], Apply(t, Action(East, TakeInbound)).value;
  }

  /** For any two new nodes and any packet that one of them routes to the other, a run that ends with both of them in a
      session and the packet written to the other one's tunnel. */
  lemma PacketsAreDelivered(s: Sys, w: Payload) returns (actions: seq<Action>)
    requires Initial(s) && Routed(s.west.overlay, w) && w != []
    ensures Run(s, actions).Some?
    ensures var t := Run(s, actions).value;
            && t.east.written == [w]
            && t.west.peer.state == 2 && t.west.peer.initiator && t.east.peer.state == 2 && !t.east.peer.initiator
  {
    var t, er, q;
    actions, t, er, q := PacketTaken(s, w);
    Opening(q, w, er, Ephemeral(East, t.east.drawn));
    Then(s, actions, t, Action(East, OpenInbound));
    actions := actions + [Action(East, OpenInbound)];
  }
}
