/** One remote peer over any sequence of handlers, whatever arrives in between. */
module PeerRuns {
  import opened Options
  import opened Symbolic
  import opened PeerMachine

  /** A handler that runs, and the ephemeral it would draw. */
  datatype Handling = Handling(event: Event, eph: Ephemeral)

  /** None when a step is blocked or crashes. */
  function After(p: Peer, hs: seq<Handling>): Option<Peer>
    decreases |hs|
  {
    if hs == [] then Some(p)
    else
      match Step(p, hs[0].event, hs[0].eph)
      case Ok(q, _, _) => After(q, hs[1..])
      case _ => None
  }

  function Sent(p: Peer, hs: seq<Handling>): seq<Datagram>
    requires After(p, hs).Some?
    decreases |hs|
  {
    if hs == [] then []
    else
      var o := Step(p, hs[0].event, hs[0].eph);
      (if o.sent.Some? then [o.sent.value] else []) + Sent(o.peer, hs[1..])
  }

  /** The ephemerals of the handshake timeouts. */
  function Drawn(hs: seq<Handling>): seq<Ephemeral> {
    if hs == [] then []
    else (if hs[0].event == HandshakeTimeout then [hs[0].eph] else []) + Drawn(hs[1..])
  }

  predicate Unanswered(hs: seq<Handling>) {
    forall h | h in hs :: h.event != HandshakeLoop
  }

  // ---------------------------------------------------------------------------------------------------------
  // Bounded retry, with anything but an answer happening between the timeouts
  // ---------------------------------------------------------------------------------------------------------

  /** What a step other than reading a handshake message can do to a peer that waits for an answer. */
  lemma WaitingStep(p: Peer, h: Handling)
    requires Valid(p) && p.running && p.state == 1 && h.event != HandshakeLoop && Step(p, h.event, h.eph).Ok?
    ensures var o := Step(p, h.event, h.eph); var q := o.peer;
            && Valid(q) && q.running && q.raddr == p.raddr
            && if h.event == HandshakeTimeout then
                 if p.retries < HANDSHAKE_RETRIES then
                   && q.state == 1 && q.retries == p.retries + 1
                   && o.sent == Some(Datagram(p.raddr, Handshake(0, Init(h.eph))))
                 else q.state == 0 && o.sent.None?
               else q.state == 1 && q.retries == p.retries && o.sent.None?
  {
    StepKeepsValid(p, h.event, h.eph);
  }

  lemma DrawnFirst(hs: seq<Handling>, k: nat)
    requires 0 < k <= |hs|
    ensures hs[..k][0] == hs[0] && hs[..k][1..] == hs[1..][..k - 1]
    ensures Drawn(hs[..k]) == (if hs[0].event == HandshakeTimeout then [hs[0].eph] else []) + Drawn(hs[1..][..k - 1])
  {
  }

  /** As long as there are retries left, a peer without an answer goes on waiting; the retries it has left and the
      initiations it has sent are those of the timeouts, whatever else happens. */
  lemma {:induction false} AttemptsAreCounted(p: Peer, hs: seq<Handling>)
    requires Valid(p) && p.running && p.state == 1 && After(p, hs).Some? && Unanswered(hs)
    requires |Drawn(hs)| <= HANDSHAKE_RETRIES - p.retries
    ensures var q := After(p, hs).value;
            Valid(q) && q.running && q.state == 1 && q.retries == p.retries + |Drawn(hs)|
    ensures Sent(p, hs) == InitiationsTo(p.raddr, Drawn(hs))
    decreases |hs|
  {
    if hs != [] {
      WaitingStep(p, hs[0]);
      var o := Step(p, hs[0].event, hs[0].eph);
      assert forall h | h in hs[1..] :: h in hs;
      AttemptsAreCounted(o.peer, hs[1..]);
      if hs[0].event == HandshakeTimeout {
        assert [o.sent.value] + InitiationsTo(p.raddr, Drawn(hs[1..])) == InitiationsTo(p.raddr, Drawn(hs));
      }
    }
  }

  lemma AfterFirst(p: Peer, hs: seq<Handling>, k: nat)
    requires 0 < k <= |hs| && Step(p, hs[0].event, hs[0].eph).Ok?
    ensures After(p, hs[..k]) == After(Step(p, hs[0].event, hs[0].eph).peer, hs[1..][..k - 1])
  {
    DrawnFirst(hs, k);
  }

  /** Without an answer, more timeouts than there are retries left bring the peer back to idle: exactly at the timeout
      after the last retry, whatever else happens in between. */
  lemma {:induction false} UnansweredGivesUp(p: Peer, hs: seq<Handling>) returns (k: nat)
    requires Valid(p) && p.running && p.state == 1 && After(p, hs).Some? && Unanswered(hs)
    requires |Drawn(hs)| > HANDSHAKE_RETRIES - p.retries
    ensures 0 < k <= |hs| && hs[k - 1].event == HandshakeTimeout
    ensures |Drawn(hs[..k])| == HANDSHAKE_RETRIES + 1 - p.retries
    ensures After(p, hs[..k]).Some? && After(p, hs[..k]).value.state == 0
    ensures forall j | 0 <= j < k :: After(p, hs[..j]).Some? && After(p, hs[..j]).value.state == 1
    decreases |hs|
  {
    WaitingStep(p, hs[0]);
    var q := Step(p, hs[0].event, hs[0].eph).peer;
    if q.state == 0 {
      k := 1;
      DrawnFirst(hs, 1);
      AfterFirst(p, hs, 1);
    } else {
      assert forall h | h in hs[1..] :: h in hs;
      var m := UnansweredGivesUp(q, hs[1..]);
      k := m + 1;
      DrawnFirst(hs, k);
      forall j | 0 < j <= k ensures After(p, hs[..j]) == After(q, hs[1..][..j - 1]) {
        AfterFirst(p, hs, j);
      }
    }
  }

  // ---------------------------------------------------------------------------------------------------------
  // The in-transport mark
  // ---------------------------------------------------------------------------------------------------------

  lemma {:induction false} AfterLast(p: Peer, hs: seq<Handling>)
    requires hs != [] && After(p, hs).Some?
    ensures After(p, hs[..|hs| - 1]).Some?
    ensures var h, q := hs[|hs| - 1], After(p, hs[..|hs| - 1]).value;
            Step(q, h.event, h.eph).Ok? && After(p, hs) == Some(Step(q, h.event, h.eph).peer)
    decreases |hs|
  {
    if |hs| > 1 {
      var q := Step(p, hs[0].event, hs[0].eph).peer;
      AfterLast(q, hs[1..]);
      AfterFirst(p, hs, |hs| - 1);
      assert hs[1..][..|hs| - 2] == hs[..|hs| - 1][1..];
    } else {
      assert hs[..0] == [] && hs[1..] == [];
    }
  }

  lemma {:induction false} EveryStateIsValid(p: Peer, hs: seq<Handling>)
    requires Valid(p) && After(p, hs).Some?
    ensures Valid(After(p, hs).value)
    decreases |hs|
  {
    if hs != [] {
      StepKeepsValid(p, hs[0].event, hs[0].eph);
      EveryStateIsValid(Step(p, hs[0].event, hs[0].eph).peer, hs[1..]);
    }
  }

  predicate Waits(p: Peer, hs: seq<Handling>, j: nat)
    requires j <= |hs|
  {
    After(p, hs[..j]).Some? && After(p, hs[..j]).value.state == 1
  }

  /** The k-th step is a receive timeout that led to the attempt the peer is still in, and no handshake timeout has
      fired since. */
  predicate Resumed(p: Peer, hs: seq<Handling>, k: nat) {
    && k < |hs| && hs[k].event == ReceiveTimeout
    && (forall j | k < j < |hs| :: hs[j].event != HandshakeTimeout)
    && (forall j | k < j <= |hs| :: Waits(p, hs, j))
  }

  /** The mark after one step into or inside state 1. */
  lemma MarkOfStep(p: Peer, h: Handling)
    requires Valid(p) && Step(p, h.event, h.eph).Ok? && Step(p, h.event, h.eph).peer.state == 1
    ensures Step(p, h.event, h.eph).peer.inTransport <==>
            h.event == ReceiveTimeout || (p.state == 1 && p.inTransport && h.event != HandshakeTimeout)
    ensures p.state == 1 ==> h.event != ReceiveTimeout
  {
  }

  lemma ResumedBefore(p: Peer, hs: seq<Handling>, k: nat)
    requires hs != [] && k < |hs| - 1
    ensures Resumed(p, hs, k) <==>
            && Resumed(p, hs[..|hs| - 1], k)
            && hs[|hs| - 1].event != HandshakeTimeout && Waits(p, hs, |hs|)
  {
    var n := |hs| - 1;
    assert forall j | 0 <= j <= n :: hs[..n][..j] == hs[..j];
    if Resumed(p, hs, k) {
      forall j | k < j <= n ensures Waits(p, hs[..n], j) {
        assert Waits(p, hs, j);
      }
      assert Waits(p, hs, |hs|);
    }
    if Resumed(p, hs[..n], k) && hs[n].event != HandshakeTimeout && Waits(p, hs, |hs|) {
      forall j | k < j < |hs| ensures hs[j].event != HandshakeTimeout {
        if j < n {
          assert hs[..n][j] == hs[j];
        }
      }
      forall j | k < j <= |hs| ensures Waits(p, hs, j) {
        if j <= n {
          assert Waits(p, hs[..n], j);
        }
      }
    }
  }

  lemma ResumedLast(p: Peer, hs: seq<Handling>)
    requires hs != [] && hs[|hs| - 1].event != ReceiveTimeout && Waits(p, hs, |hs|)
    ensures forall k: nat ::
              Resumed(p, hs, k) <==> Resumed(p, hs[..|hs| - 1], k) && hs[|hs| - 1].event != HandshakeTimeout
  {
    forall k: nat
      ensures Resumed(p, hs, k) <==> Resumed(p, hs[..|hs| - 1], k) && hs[|hs| - 1].event != HandshakeTimeout
    {
      if k < |hs| - 1 {
        ResumedBefore(p, hs, k);
      }
    }
  }

  lemma NotWaiting(p: Peer, hs: seq<Handling>)
    requires After(p, hs).Some? && After(p, hs).value.state != 1
    ensures forall k: nat :: !Resumed(p, hs, k)
  {
    assert hs[..|hs|] == hs;
    assert !Waits(p, hs, |hs|);
  }

  /** In every run of a new peer: while it waits for an answer it carries the in-transport mark exactly when a receive
      timeout led there and no handshake timeout has fired since. */
  lemma {:induction false} MarkedExactly(raddr: Endpoint, hs: seq<Handling>)
    requires After(NewPeer(raddr), hs).Some? && After(NewPeer(raddr), hs).value.state == 1
    ensures After(NewPeer(raddr), hs).value.inTransport <==> exists k: nat :: Resumed(NewPeer(raddr), hs, k)
    decreases |hs|
  {
    var p, n := NewPeer(raddr), |hs| - 1;
    AfterLast(p, hs);
    EveryStateIsValid(p, hs[..n]);
    var q, h := After(p, hs[..n]).value, hs[n];
    MarkOfStep(q, h);
    assert hs[..|hs|] == hs;
    assert Waits(p, hs, |hs|);
    if h.event == ReceiveTimeout {
      assert Resumed(p, hs, n);
    } else {
      ResumedLast(p, hs);
      if q.state == 1 {
        MarkedExactly(raddr, hs[..n]);
        if q.inTransport && h.event != HandshakeTimeout {
          var k: nat :| Resumed(p, hs[..n], k);
          assert Resumed(p, hs, k);
        }
      } else {
        NotWaiting(p, hs[..n]);
      }
    }
  }

  lemma {:induction false} Then(p: Peer, hs: seq<Handling>, q: Peer, h: Handling)
    requires After(p, hs) == Some(q) && Step(q, h.event, h.eph).Ok?
    ensures After(p, hs + [h]) == Some(Step(q, h.event, h.eph).peer)
    decreases |hs|
  {
    if hs == [] {
      assert hs + [h] == [h] && [h][1..] == [];
    } else {
      assert (hs + [h])[1..] == hs[1..] + [h];
      Then(Step(p, hs[0].event, hs[0].eph).peer, hs[1..], q, h);
    }
  }

  /** A session as its initiator. */
  lemma InitiatorEstablished(raddr: Endpoint, e: Ephemeral, er: Ephemeral, packet: Payload)
    returns (hs: seq<Handling>, q: Peer)
    ensures After(NewPeer(raddr), hs) == Some(q) && q.state == 2 && q.initiator && q.running && !q.locked
    ensures q.inTransport && q.inbound == [] && q.opening.None? && q.rx == Some(Cipher(Key(e, er, ToInitiator), 0))
  {
    var p := NewPeer(raddr);
    var h := HandshakeBuffer(1, Resp(e, er), raddr);
    hs := [];
    q := p;
    Then(p, hs, q, Handling(Start, e));
    hs, q := hs + [Handling(Start, e)], StartPeer(q).peer;
    Then(p, hs, q, Handling(FromTunnel(packet), e));
    hs, q := hs + [Handling(FromTunnel(packet), e)], OutboundPacket(q, packet, e).peer;
    Then(p, hs, q, Handling(HandshakeArrives(h), e));
    hs, q := hs + [Handling(HandshakeArrives(h), e)], ReceiveHandshake(q, h).peer;
    Then(p, hs, q, Handling(HandshakeLoop, e));
    hs, q := hs + [Handling(HandshakeLoop, e)], HandshakeStep(q, e).peer;
  }

  /** The mark is not the same as state 2: an initiator that heard from its peer and then nothing more is back in
      state 1 with it. */
  lemma MarkedWhileWaiting(raddr: Endpoint, e: Ephemeral, er: Ephemeral, packet: Payload)
    returns (hs: seq<Handling>)
    ensures After(NewPeer(raddr), hs).Some?
    ensures After(NewPeer(raddr), hs).value.state == 1 && After(NewPeer(raddr), hs).value.inTransport
  {
    var p := NewPeer(raddr);
    var d := DataBuffer(0, Sealed(Key(e, er, ToInitiator), 0, packet), raddr);
    var q: Peer;
    hs, q := InitiatorEstablished(raddr, e, er, packet);
    Then(p, hs, q, Handling(DataArrives(d), e));
    hs, q := hs + [Handling(DataArrives(d), e)], InboundPacket(q, d).peer;
    Then(p, hs, q, Handling(TakeInbound, e));
    hs, q := hs + [Handling(TakeInbound, e)], TakeInboundStep(q).peer;
    Then(p, hs, q, Handling(OpenInbound, e));
    hs, q := hs + [Handling(OpenInbound, e)], OpenStep(q).peer;
    EveryStateIsValid(p, hs);
    Then(p, hs, q, Handling(ReceiveTimeout, e));
    hs := hs + [Handling(ReceiveTimeout, e)];
  }
}
