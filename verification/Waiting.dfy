/** Packets that wait for a session go out under the next one: first the one that the outbound loop has in hand, then
    those in its channel. */
module Waiting {
  import opened Options
  import opened Symbolic
  import opened PeerMachine
  import opened Network
  import KeyAgreement
  import opened Delivery

  /** The peer of `side` is in no session before any of these steps. */
  predicate Outside(s: Sys, actions: seq<Action>, side: Side)
    requires Run(s, actions).Some?
    decreases |actions|
  {
    actions != [] ==> s.At(side).peer.state != 2 && Outside(Apply(s, actions[0]).value, actions[1..], side)
  }

  predicate InSession(p: Peer, key: Key) {
    p.state == 2 && p.tx.Some? && p.tx.value.key == key
  }

  /** It encrypts with this key before and after each of them. */
  predicate Inside(s: Sys, actions: seq<Action>, side: Side, key: Key)
    requires Run(s, actions).Some?
    decreases |actions|
  {
    InSession(s.At(side).peer, key) && (actions != [] ==> Inside(Apply(s, actions[0]).value, actions[1..], side, key))
  }

  /** What the peer has still to send, oldest first. */
  function Unsettled(p: Peer): seq<Payload> {
    (if p.sending.Some? then [p.sending.value] else []) + p.outbound
  }

  // ---------------------------------------------------------------------------------------------------------
  // Without a session
  // ---------------------------------------------------------------------------------------------------------

  /** Between two moments a node encrypted nothing; what left its channel was flushed or taken in hand; and what it had
      in hand it has still. */
  predicate Waited(n: Node, m: Node) {
    && m.sealed == n.sealed
    && |n.fates| <= |m.fates| && m.fates[..|n.fates|] == n.fates
    && (forall i | |n.fates| <= i < |m.fates| :: m.fates[i] == Flushed || m.fates[i] == InHand)
    && (n.peer.sending.Some? ==> m.peer.sending == n.peer.sending)
  }

  lemma OutsideStep(p: Peer, event: Event, eph: Ephemeral)
    requires Valid(p) && p.state != 2 && Step(p, event, eph).Ok?
    ensures var o := Step(p, event, eph);
            event != SendOutbound && Boxes(o.sent) == [] && (p.sending.Some? ==> o.peer.sending == p.sending)
  {
    if event != SendOutbound && event != TakeOutbound {
      StepAccounts(p, event, eph);
    }
  }

  lemma WaitedOneStep(n: Node, side: Side, event: Event)
    requires Valid(n.peer) && n.peer.state != 2 && Taken(n, side, event).Ok?
    ensures Waited(n, After(n, side, event))
  {
    OutsideStep(n.peer, event, Ephemeral(side, n.drawn));
    assert n.sealed + [] == n.sealed;
  }

  lemma WaitedTrans(n: Node, m: Node, o: Node)
    requires Waited(n, m) && Waited(m, o)
    ensures Waited(n, o)
  {
    forall i | |n.fates| <= i < |o.fates| ensures o.fates[i] == Flushed || o.fates[i] == InHand {
      if i < |m.fates| {
        assert o.fates[..|m.fates|][i] == m.fates[i];
      }
    }
    assert o.fates[..|n.fates|] == o.fates[..|m.fates|][..|n.fates|];
  }

  lemma WaitedStep(s: Sys, a: Action, side: Side)
    requires KeyAgreement.Inv(s) && Apply(s, a).Some? && s.At(side).peer.state != 2
    ensures Waited(s.At(side), Apply(s, a).value.At(side))
  {
    KeyAgreement.InvAt(s, side);
    if a.side == side && !Dropped(s.At(side), a.event) {
      WaitedOneStep(s.At(side), side, a.event);
    }
  }

  lemma {:induction false} OutsideWaits(s: Sys, actions: seq<Action>, side: Side)
    requires KeyAgreement.Inv(s) && Run(s, actions).Some? && Outside(s, actions, side)
    ensures Waited(s.At(side), Run(s, actions).value.At(side))
    decreases |actions|
  {
    if actions != [] {
      var t := Apply(s, actions[0]).value;
      WaitedStep(s, actions[0], side);
      KeyAgreement.InvKept(s, actions[0]);
      OutsideWaits(t, actions[1..], side);
      WaitedTrans(s.At(side), t.At(side), Run(s, actions).value.At(side));
    }
  }

  // ---------------------------------------------------------------------------------------------------------
  // Inside one
  // ---------------------------------------------------------------------------------------------------------

  /** A queue is served from its front: each packet served is sent, in a box under this key, or fails to encrypt. */
  predicate Served(queue: seq<Payload>, fates: seq<Fate>, after: seq<Payload>, boxes: seq<Sealed>, key: Key) {
    && |fates| <= |queue| && after == queue[|fates|..]
    && (forall i | 0 <= i < |fates| :: fates[i] == Sent || fates[i] == Failed)
    && Kept(queue[..|fates|], fates) == Payloads(boxes)
    && forall b | b in boxes :: b.key == key
  }

  lemma ServedOn(queue: seq<Payload>, fates: seq<Fate>, middle: seq<Payload>, boxes: seq<Sealed>,
                 more: seq<Payload>, newFates: seq<Fate>, after: seq<Payload>, newBoxes: seq<Sealed>, key: Key)
    requires Served(queue, fates, middle, boxes, key) && Served(middle + more, newFates, after, newBoxes, key)
    ensures Served(queue + more, fates + newFates, after, boxes + newBoxes, key)
  {
    SplitFurther(queue, |fates|, more, |newFates|);
    KeptConcat(queue[..|fates|], fates, (middle + more)[..|newFates|], newFates);
    assert Payloads(boxes + newBoxes) == Payloads(boxes) + Payloads(newBoxes);
  }

  lemma NobodyServed(queue: seq<Payload>, key: Key)
    ensures Served(queue, [], queue, [], key)
  {
    assert queue[..0] == [] && Kept([], []) == [];
  }

  lemma SendingServes(p: Peer, eph: Ephemeral, key: Key) returns (fates: seq<Fate>)
    requires InSession(p, key) && SendStep(p).Ok?
    ensures Served(Unsettled(p), fates, Unsettled(SendStep(p).peer), Boxes(SendStep(p).sent), key)
  {
    var o := SendStep(p);
    fates := [if o.sent.None? then Failed else Sent];
    assert fates[..0] == [] && Unsettled(p)[..1][..0] == [] && Kept([], []) == [];
    assert Unsettled(p)[1..] == Unsettled(o.peer);
    if o.sent.Some? {
      assert Payloads(Boxes(o.sent)) == [p.sending.value];
    }
  }

  lemma NoFlushInside(p: Peer, event: Event, eph: Ephemeral, key: Key)
    requires Valid(p) && InSession(p, key) && Step(p, event, eph).Ok? && InSession(Step(p, event, eph).peer, key)
    requires event != SendOutbound && event != TakeOutbound
    ensures FlushCount(p, event, Step(p, event, eph).peer) == 0
  {
  }

  /** Inside a session nothing is flushed. */
  lemma OthersServeNobody(p: Peer, event: Event, eph: Ephemeral, key: Key)
    requires Valid(p) && InSession(p, key) && Step(p, event, eph).Ok? && InSession(Step(p, event, eph).peer, key)
    requires event != SendOutbound
    ensures var o := Step(p, event, eph);
            Boxes(o.sent) == [] && Unsettled(o.peer) == Unsettled(p) + Accepted(p, event)
  {
    if event != TakeOutbound {
      StepAccounts(p, event, eph);
      NoFlushInside(p, event, eph, key);
    }
  }

  lemma InsideStep(p: Peer, event: Event, eph: Ephemeral, key: Key) returns (fates: seq<Fate>)
    requires Valid(p) && InSession(p, key) && Step(p, event, eph).Ok? && InSession(Step(p, event, eph).peer, key)
    ensures var o := Step(p, event, eph);
            Served(Unsettled(p) + Accepted(p, event), fates, Unsettled(o.peer), Boxes(o.sent), key)
  {
    if event == SendOutbound {
      fates := SendingServes(p, eph, key);
      assert Unsettled(p) + [] == Unsettled(p);
    } else {
      OthersServeNobody(p, event, eph, key);
      fates := [];
      NobodyServed(Unsettled(p) + Accepted(p, event), key);
    }
  }

  /** What a node did between two moments of a session: it accepted `more`, served some of what it had or got, and
      encrypted these boxes. */
  predicate Progress(n: Node, m: Node, more: seq<Payload>, fates: seq<Fate>, boxes: seq<Sealed>, key: Key) {
    && m.accepted == n.accepted + more && m.sealed == n.sealed + boxes
    && Served(Unsettled(n.peer) + more, fates, Unsettled(m.peer), boxes, key)
  }

  lemma NoProgress(n: Node, m: Node, key: Key)
    requires m.accepted == n.accepted && m.sealed == n.sealed && m.peer == n.peer
    ensures Progress(n, m, [], [], [], key)
  {
    assert n.accepted + [] == n.accepted && n.sealed + [] == n.sealed && Unsettled(n.peer) + [] == Unsettled(n.peer);
    NobodyServed(Unsettled(n.peer), key);
  }

  lemma ProgressTrans(n: Node, m: Node, o: Node, more: seq<Payload>, fates: seq<Fate>, boxes: seq<Sealed>,
                      newMore: seq<Payload>, newFates: seq<Fate>, newBoxes: seq<Sealed>, key: Key)
    requires Progress(n, m, more, fates, boxes, key) && Progress(m, o, newMore, newFates, newBoxes, key)
    ensures Progress(n, o, more + newMore, fates + newFates, boxes + newBoxes, key)
  {
    var queue := Unsettled(n.peer) + more;
    ServedOn(queue, fates, Unsettled(m.peer), boxes, newMore, newFates, Unsettled(o.peer), newBoxes, key);
    assert queue + newMore == Unsettled(n.peer) + (more + newMore);
  }

  lemma OwnStepServes(n: Node, side: Side, event: Event, key: Key) returns (fates: seq<Fate>)
    requires Valid(n.peer) && Taken(n, side, event).Ok?
    requires InSession(n.peer, key) && InSession(After(n, side, event).peer, key)
    ensures Progress(n, After(n, side, event), Accepted(n.peer, event), fates, Boxes(Taken(n, side, event).sent), key)
  {
    fates := InsideStep(n.peer, event, Ephemeral(side, n.drawn), key);
  }

  lemma StepServes(s: Sys, a: Action, side: Side, key: Key)
    returns (more: seq<Payload>, fates: seq<Fate>, boxes: seq<Sealed>)
    requires KeyAgreement.Inv(s) && Apply(s, a).Some?
    requires InSession(s.At(side).peer, key) && InSession(Apply(s, a).value.At(side).peer, key)
    ensures Progress(s.At(side), Apply(s, a).value.At(side), more, fates, boxes, key)
  {
    var n := s.At(side);
    KeyAgreement.InvAt(s, side);
    if a.side == side && !Dropped(n, a.event) {
      fates := OwnStepServes(n, side, a.event, key);
      more, boxes := Accepted(n.peer, a.event), Boxes(Taken(n, side, a.event).sent);
    } else {
      more, fates, boxes := [], [], [];
      NoProgress(n, Apply(s, a).value.At(side), key);
    }
  }

  lemma {:induction false} InsideServes(s: Sys, actions: seq<Action>, side: Side, key: Key)
    returns (more: seq<Payload>, fates: seq<Fate>, boxes: seq<Sealed>)
    requires KeyAgreement.Inv(s) && Run(s, actions).Some? && Inside(s, actions, side, key)
    ensures Progress(s.At(side), Run(s, actions).value.At(side), more, fates, boxes, key)
    decreases |actions|
  {
    if actions == [] {
      more, fates, boxes := [], [], [];
      NoProgress(s.At(side), s.At(side), key);
    } else {
      var t := Apply(s, actions[0]).value;
      more, fates, boxes := StepServes(s, actions[0], side, key);
      KeyAgreement.InvKept(s, actions[0]);
      var newMore, newFates, newBoxes := InsideServes(t, actions[1..], side, key);
      ProgressTrans(s.At(side), t.At(side), Run(s, actions).value.At(side), more, fates, boxes,
                    newMore, newFates, newBoxes, key);
      more, fates, boxes := more + newMore, fates + newFates, boxes + newBoxes;
    }
  }

  /** From any moment of any run: until the peer has a session nothing is encrypted, packets leave the outbound channel
      only into the hands of the outbound loop or in a reset, and not even a reset takes the packet in hand.  While the
      peer then is in that session, the packet in hand and those in the channel, and those accepted meanwhile, are
      served in this order: none is flushed, and those that are sent are encrypted with the session's key. */
  lemma WaitingPacketsGoOutNext(start: Sys, before: seq<Action>, waiting: seq<Action>, session: seq<Action>,
                                side: Side, key: Key)
    returns (more: seq<Payload>, fates: seq<Fate>, boxes: seq<Sealed>)
    requires Initial(start) && Run(start, before).Some?
    requires Run(Run(start, before).value, waiting).Some?
    requires Run(Run(Run(start, before).value, waiting).value, session).Some?
    requires Outside(Run(start, before).value, waiting, side)
    requires Inside(Run(Run(start, before).value, waiting).value, session, side, key)
    ensures var s := Run(start, before).value; var t := Run(s, waiting).value; var u := Run(t, session).value;
            Waited(s.At(side), t.At(side)) && Progress(t.At(side), u.At(side), more, fates, boxes, key)
  {
    var s := Run(start, before).value;
    KeyAgreement.RunKeepsInv(start, before);
    KeyAgreement.RunKeepsInv(s, waiting);
    OutsideWaits(s, waiting, side);
    more, fates, boxes := InsideServes(Run(s, waiting).value, session, side, key);
  }

  /** The timeout that gives an attempt up flushes the channel, but not the packet in hand. */
  lemma HeldPacketOutlivesReset(p: Peer, eph: Ephemeral)
    requires Valid(p) && p.running && p.state == 1 && p.retries == HANDSHAKE_RETRIES && p.sending.Some?
    ensures var o := Step(p, HandshakeTimeout, eph);
            o.Ok? && o.peer.state == 0 && Unsettled(o.peer) == [p.sending.value]
  {
  }
}
