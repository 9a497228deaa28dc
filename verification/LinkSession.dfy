/** How two new nodes come to a session over the link that delivers in order. */
module LinkSession {
  import opened Options
  import opened Blocks
  import opened Symbolic
  import opened PeerMachine
  import opened Network
  import opened FirstSession
  import opened Fifo

  lemma {:induction false} ThenLink(l: Link, actions: seq<LinkAction>, t: Link, la: LinkAction)
    requires RunLink(l, actions) == Some(t) && ApplyLink(t, la).Some?
    ensures RunLink(l, actions + [la]) == ApplyLink(t, la)
    decreases |actions|
  {
    if actions == [] {
      assert actions + [la] == [la] && [la][1..] == [];
    } else {
      assert (actions + [la])[1..] == actions[1..] + [la];
      ThenLink(ApplyLink(l, actions[0]).value, actions[1..], t, la);
    }
  }

  /** Both nodes are started and the link is empty. */
  lemma LinkStarted(l: Link) returns (actions: seq<LinkAction>, t: Link)
    requires InitialLink(l)
    ensures RunLink(l, actions) == Some(t) && t.toWest == [] && t.toEast == []
    ensures t.net.west.overlay == l.net.west.overlay
    ensures Started(t.net.west.peer) && t.net.west.drawn == 1 && Started(t.net.east.peer)
  {
    var a, b := Handler(Action(West, Start)), Handler(Action(East, Start));
    ThenLink(l, [], l, a);
    actions, t := [] + [a], ApplyLink(l, a).value;
    ThenLink(l, actions, t, b);
    actions, t := actions + [b], ApplyLink(t, b).value;
  }

  lemma LinkInitiated(l: Link, w: Payload) returns (actions: seq<LinkAction>, t: Link)
    requires InitialLink(l) && Routed(l.net.west.overlay, w)
    ensures RunLink(l, actions) == Some(t) && t.toWest == [] && t.toEast == [Handshake(0, Init(First(West)))]
    ensures FirstSession.Waiting(t.net.west.peer, w) && Started(t.net.east.peer)
    ensures Handshake(0, Init(First(West))) in t.net.east.mail
  {
    actions, t := LinkStarted(l);
    var a := Handler(Action(West, FromTunnel(w)));
    ThenLink(l, actions, t, a);
    actions, t := actions + [a], ApplyLink(t, a).value;
  }

  lemma InitiationArrives(l: Link, w: Payload) returns (actions: seq<LinkAction>, t: Link)
    requires InitialLink(l) && Routed(l.net.west.overlay, w)
    ensures RunLink(l, actions) == Some(t) && t.toWest == [] && FirstSession.Waiting(t.net.west.peer, w)
    ensures var q := t.net.east.peer;
            Started(q.(handshakes := [])) && q.handshakes == [HandshakeBuffer(0, Init(First(West)), 0)]
  {
    actions, t := LinkInitiated(l, w);
    Queued(t.net.east.peer, HandshakeBuffer(0, Init(First(West)), 0), Ephemeral(East, t.net.east.drawn));
    var a := Deliver(East, 0);
    ThenLink(l, actions, t, a);
    actions, t := actions + [a], ApplyLink(t, a).value;
  }

  lemma LinkAnswered(l: Link, w: Payload) returns (actions: seq<LinkAction>, t: Link, er: Ephemeral)
    requires InitialLink(l) && Routed(l.net.west.overlay, w)
    ensures RunLink(l, actions) == Some(t) && t.toWest == [Handshake(1, Resp(First(West), er))]
    ensures FirstSession.Waiting(t.net.west.peer, w) && Responder(t.net.east.peer, er) && t.net.east.live
    ensures Handshake(1, Resp(First(West), er)) in t.net.west.mail
  {
    actions, t := InitiationArrives(l, w);
    var a := Handler(Action(East, HandshakeLoop));
    er := Ephemeral(East, t.net.east.drawn);
    InitiationIsRead(t.net.east.peer, er);
    ThenLink(l, actions, t, a);
    actions, t := actions + [a], ApplyLink(t, a).value;
  }

  lemma AnswerArrives(l: Link, w: Payload) returns (actions: seq<LinkAction>, t: Link, er: Ephemeral)
    requires InitialLink(l) && Routed(l.net.west.overlay, w)
    ensures RunLink(l, actions) == Some(t) && Responder(t.net.east.peer, er) && t.net.east.live
    ensures var p := t.net.west.peer;
            && FirstSession.Waiting(p.(handshakes := []), w)
            && p.handshakes == [HandshakeBuffer(1, Resp(First(West), er), 0)]
  {
    actions, t, er := LinkAnswered(l, w);
    var a := Deliver(West, 0);
    ThenLink(l, actions, t, a);
    actions, t := actions + [a], ApplyLink(t, a).value;
  }

  /** For any two new nodes and any packet the western one routes to the eastern one, a run over the link to a session
      of both, which the responder is using. */
  lemma SessionOverLink(l: Link, w: Payload) returns (actions: seq<LinkAction>, t: Link, er: Ephemeral)
    requires InitialLink(l) && Routed(l.net.west.overlay, w)
    ensures RunLink(l, actions) == Some(t) && t.net.east.live
    ensures Initiator(t.net.west.peer, w, er) && Responder(t.net.east.peer, er)
  {
    actions, t, er := AnswerArrives(l, w);
    AnswerIsRead(t.net.west.peer, w, er, Ephemeral(West, t.net.west.drawn));
    var a := Handler(Action(West, HandshakeLoop));
    ThenLink(l, actions, t, a);
    actions, t := actions + [a], ApplyLink(t, a).value;
  }
}
