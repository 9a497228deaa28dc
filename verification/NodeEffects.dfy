/** The same over the runs of two nodes. */
module NodeEffects {
  import opened Options
  import opened Symbolic
  import opened PeerMachine
  import opened Network
  import opened KeyAgreement
  import opened PeerEffects

  /** In every run, a receive timeout sends nothing and leaves an idle peer if it is a responder's, and sends an
      initiation and leaves a peer that waits for the answer to it if it is an initiator's. */
  lemma ReceiveTimeouts(s: Sys, actions: seq<Action>, side: Side)
    requires Initial(s) && Run(s, actions).Some? && Run(s, actions).value.At(side).peer.receiveTimer
    ensures var n := Run(s, actions).value.At(side);
            var p, o, eph := n.peer, Taken(n, side, ReceiveTimeout), Ephemeral(side, n.drawn);
            && o.Ok?
            && (!p.initiator ==> SendsNothing(o) && GoneIdle(p, o.peer))
            && (p.initiator ==> SendsInit(p, o, eph) && Dialled(p, o.peer, eph, 1) && o.peer.outbound == p.outbound)
  {
    EveryPeerIsValid(s, actions, side);
    var n := Run(s, actions).value.At(side);
    ReceiveTimeoutEffect(n.peer, Ephemeral(side, n.drawn));
  }

  /** In every run, a packet from the tunnel of a started node makes it send something exactly when its peer is idle: an
      initiation, the first of an attempt. */
  lemma TunnelPackets(s: Sys, actions: seq<Action>, side: Side, packet: Payload)
    requires Initial(s) && Run(s, actions).Some? && Run(s, actions).value.At(side).peer.running
    ensures var n := Run(s, actions).value.At(side);
            var p, o, eph := n.peer, Taken(n, side, FromTunnel(packet)), Ephemeral(side, n.drawn);
            && o.Ok? && o.peer.outbound == Appended(p.outbound, packet, OUTBOUND_SIZE)
            && (o.sent.Some? <==> p.state == 0)
            && (p.state == 0 ==> SendsInit(p, o, eph) && Dialled(p, o.peer, eph, 1))
  {
    EveryPeerIsValid(s, actions, side);
    var n := Run(s, actions).value.At(side);
    TunnelPacketEffect(n.peer, packet, Ephemeral(side, n.drawn));
  }

  /** In every run, an initiation of a node comes from a packet from the tunnel while its peer is idle, or from a
      timeout of a peer that is an initiator, and each of these sends one, but for the timeout of the tenth. */
  lemma InitiationsComeFrom(s: Sys, actions: seq<Action>, side: Side, event: Event)
    requires Initial(s) && Run(s, actions).Some? && Run(s, actions).value.At(side).peer.running
    requires Taken(Run(s, actions).value.At(side), side, event).Ok?
    ensures var n := Run(s, actions).value.At(side);
            var p, after := n.peer, After(n, side, event);
            if (event.FromTunnel? && p.state == 0)
               || (event == HandshakeTimeout && p.initiator && p.retries < HANDSHAKE_RETRIES)
               || (event == ReceiveTimeout && p.initiator)
            then after.inits == n.inits + [Ephemeral(side, n.drawn)]
            else after.inits == n.inits
  {
    EveryPeerIsValid(s, actions, side);
    var n := Run(s, actions).value.At(side);
    InitiatesExactly(n.peer, event, Ephemeral(side, n.drawn));
    StepExplained(n.peer, event, Ephemeral(side, n.drawn));
  }

  /** In every run, whatever a node sends goes to where its peer was last heard. */
  lemma SentWhereHeard(s: Sys, actions: seq<Action>, side: Side, event: Event)
    requires Initial(s) && Run(s, actions).Some?
    requires Taken(Run(s, actions).value.At(side), side, event).Ok?
    ensures var n := Run(s, actions).value.At(side);
            SendsTo(Taken(n, side, event), HeardIn(n.peer, event))
  {
    EveryPeerIsValid(s, actions, side);
    var n := Run(s, actions).value.At(side);
    SendsWhereHeard(n.peer, event, Ephemeral(side, n.drawn));
  }
}
