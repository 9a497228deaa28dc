/** No key encrypts two packets with one nonce.  Every packet a node encrypts carries as its nonce the number of
    packets it encrypted under that key before, whatever is lost, reordered or duplicated, across re-handshakes and
    in both directions. */
module Nonces {
  import opened Options
  import opened Symbolic
  import opened PeerMachine
  import opened Network
  import opened KeyAgreement

  /** How many of the boxes are under this key. */
  function Count(boxes: seq<Sealed>, key: Key): nat {
    if boxes == [] then 0
    else Count(boxes[..|boxes| - 1], key) + if boxes[|boxes| - 1].key == key then 1 else 0
  }

  predicate Numbered(boxes: seq<Sealed>) {
    forall i | 0 <= i < |boxes| :: boxes[i].nonce == Count(boxes[..i], boxes[i].key)
  }

  lemma CountAppend(boxes: seq<Sealed>, box: Sealed, key: Key)
    ensures Count(boxes + [box], key) == Count(boxes, key) + if box.key == key then 1 else 0
  {
    assert (boxes + [box])[..|boxes|] == boxes;
  }

  lemma {:induction false} CountZero(boxes: seq<Sealed>, key: Key)
    requires forall b | b in boxes :: b.key != key
    ensures Count(boxes, key) == 0
  {
    if boxes != [] {
      CountZero(boxes[..|boxes| - 1], key);
    }
  }

  lemma {:induction false} CountMonotone(boxes: seq<Sealed>, i: nat, j: nat, key: Key)
    requires i <= j <= |boxes|
    ensures Count(boxes[..i], key) <= Count(boxes[..j], key)
    decreases j
  {
    if i < j {
      assert boxes[..j][..j - 1] == boxes[..j - 1];
      CountMonotone(boxes, i, j - 1, key);
    }
  }

  lemma NumberedAppend(boxes: seq<Sealed>, box: Sealed)
    requires Numbered(boxes) && box.nonce == Count(boxes, box.key)
    ensures Numbered(boxes + [box])
  {
    var more := boxes + [box];
    forall i | 0 <= i < |more|
      ensures more[i].nonce == Count(more[..i], more[i].key)
    {
      assert more[..i] == boxes[..i];
      assert boxes[..|boxes|] == boxes;
    }
  }

  /** Numbered boxes never repeat a nonce under one key. */
  lemma NumberedIsUnique(boxes: seq<Sealed>, i: nat, j: nat)
    requires Numbered(boxes) && i < j < |boxes| && boxes[i].key == boxes[j].key
    ensures boxes[i].nonce < boxes[j].nonce
  {
    assert boxes[..i + 1][..i] == boxes[..i];
    CountMonotone(boxes, i + 1, j, boxes[j].key);
  }

  predicate Drawn(n: Node, side: Side, e: Ephemeral) {
    e.owner == side && e.index < n.drawn
  }

  predicate NonceInv(n: Node, side: Side) {
    && Numbered(n.sealed)
    && (forall b | b in n.sealed :: Drawn(n, side, b.key.Own()))
    && (n.peer.tx.Some? ==>
          Drawn(n, side, n.peer.tx.value.key.Own())
          && Count(n.sealed, n.peer.tx.value.key) == n.peer.tx.value.nonce)
    && (n.peer.hs.Initiating? ==>
          Drawn(n, side, n.peer.hs.e) && forall b | b in n.sealed :: b.key.Own() != n.peer.hs.e)
  }

  /** What a step does to the sending cipher: it stays, goes, is used once, or is made for a fresh session. */
  lemma CipherOfStep(p: Peer, event: Event, eph: Ephemeral)
    requires Valid(p) && Step(p, event, eph).Ok?
    ensures var o := Step(p, event, eph);
            if event == SendOutbound && o.sent.Some? then
              && p.sending.Some? && p.tx.Some? && o.peer.tx == Some(p.tx.value.Next()) && o.peer.hs == p.hs
              && o.sent.value.message ==
                 Data(p.tx.value.nonce, Sealed(p.tx.value.key, p.tx.value.nonce, p.sending.value))
            else
              && Boxes(o.sent) == []
              && (o.peer.tx.Some? && o.peer.tx != p.tx ==>
                    && o.peer.tx.value.nonce == 0
                    && (o.peer.tx.value.key.Own() == eph
                        || (p.hs.Initiating? && o.peer.tx.value.key.Own() == p.hs.e)))
              && (o.peer.hs.Initiating? ==> o.peer.hs == p.hs || o.peer.hs.e == eph)
  {
  }

  lemma SealingKeepsNonces(n: Node, box: Sealed, side: Side)
    requires NonceInv(n, side) && n.peer.tx.Some?
    requires box.key == n.peer.tx.value.key && box.nonce == n.peer.tx.value.nonce
    requires n.peer.hs.Initiating? ==> box.key.Own() != n.peer.hs.e
    ensures NonceInv(n.(sealed := n.sealed + [box], peer := n.peer.(tx := Some(n.peer.tx.value.Next()))), side)
  {
    NumberedAppend(n.sealed, box);
    CountAppend(n.sealed, box, box.key);
  }

  lemma RekeyingKeepsNonces(n: Node, after: Node, side: Side, eph: Ephemeral)
    requires NonceInv(n, side) && eph == Ephemeral(side, n.drawn)
    requires after.sealed == n.sealed && after.drawn == n.drawn + 1
    requires after.peer.tx.Some? && after.peer.tx != n.peer.tx ==>
               && after.peer.tx.value.nonce == 0
               && (after.peer.tx.value.key.Own() == eph
                   || (n.peer.hs.Initiating? && after.peer.tx.value.key.Own() == n.peer.hs.e))
    requires after.peer.hs.Initiating? ==> after.peer.hs == n.peer.hs || after.peer.hs.e == eph
    ensures NonceInv(after, side)
  {
    if after.peer.tx.Some? && after.peer.tx != n.peer.tx {
      CountZero(n.sealed, after.peer.tx.value.key);
    }
  }

  lemma SendKeepsNonces(n: Node, side: Side)
    requires NonceInv(n, side) && Valid(n.peer)
    requires Taken(n, side, SendOutbound).Ok? && Taken(n, side, SendOutbound).sent.Some?
    ensures NonceInv(After(n, side, SendOutbound), side)
  {
    var o := Taken(n, side, SendOutbound);
    CipherOfStep(n.peer, SendOutbound, Ephemeral(side, n.drawn));
    SealingKeepsNonces(n, o.sent.value.message.box, side);
  }

  lemma OthersKeepNonces(n: Node, side: Side, event: Event)
    requires NonceInv(n, side) && Valid(n.peer)
    requires Taken(n, side, event).Ok? && (event == SendOutbound ==> Taken(n, side, event).sent.None?)
    ensures NonceInv(After(n, side, event), side)
  {
    CipherOfStep(n.peer, event, Ephemeral(side, n.drawn));
    RekeyingKeepsNonces(n, After(n, side, event), side, Ephemeral(side, n.drawn));
  }

  lemma NonceKept(n: Node, side: Side, event: Event)
    requires NonceInv(n, side) && Valid(n.peer)
    requires Taken(n, side, event).Ok?
    ensures NonceInv(After(n, side, event), side)
  {
    if event == SendOutbound && Taken(n, side, event).sent.Some? {
      SendKeepsNonces(n, side);
    } else {
      OthersKeepNonces(n, side, event);
    }
  }

  predicate Inv(s: Sys) {
    KeyAgreement.Inv(s) && NonceInv(s.west, West) && NonceInv(s.east, East)
  }

  lemma InvOfNodes(s: Sys, side: Side)
    requires KeyAgreement.Inv(s) && NonceInv(s.At(side), side) && NonceInv(s.At(side.Other()), side.Other())
    ensures Inv(s)
  {
  }

  lemma MailKeepsNonces(n: Node, side: Side, sent: Option<Datagram>)
    requires NonceInv(n, side)
    ensures NonceInv(Receive(n, sent), side)
  {
  }

  lemma StepKeepsNonces(s: Sys, a: Action)
    requires Inv(s) && Apply(s, a).Some?
    ensures Inv(Apply(s, a).value)
  {
    InvKept(s, a);
    var n, m := s.At(a.side), s.At(a.side.Other());
    if !Dropped(n, a.event) {
      KeyAgreement.InvAt(s, a.side);
      NonceKept(n, a.side, a.event);
      MailKeepsNonces(m, a.side.Other(), Taken(n, a.side, a.event).sent);
      InvOfNodes(Apply(s, a).value, a.side);
    }
  }

  lemma {:induction false} RunKeepsNonces(s: Sys, actions: seq<Action>)
    requires Inv(s) && Run(s, actions).Some?
    ensures Inv(Run(s, actions).value)
    decreases |actions|
  {
    if actions != [] {
      StepKeepsNonces(s, actions[0]);
      RunKeepsNonces(Apply(s, actions[0]).value, actions[1..]);
    }
  }

  lemma InitialInv(s: Sys)
    requires Initial(s)
    ensures Inv(s)
  {
  }

  lemma NonceInvHolds(s: Sys, actions: seq<Action>, side: Side)
    requires Initial(s) && Run(s, actions).Some?
    ensures NonceInv(Run(s, actions).value.At(side), side)
  {
    InitialInv(s);
    RunKeepsNonces(s, actions);
  }

  predicate NoReuse(boxes: seq<Sealed>) {
    forall i, j | 0 <= i < j < |boxes| :: boxes[i].key != boxes[j].key || boxes[i].nonce != boxes[j].nonce
  }

  lemma NumberedNoReuse(boxes: seq<Sealed>)
    requires Numbered(boxes)
    ensures NoReuse(boxes)
  {
    forall i, j | 0 <= i < j < |boxes|
      ensures boxes[i].key != boxes[j].key || boxes[i].nonce != boxes[j].nonce
    {
      if boxes[i].key == boxes[j].key {
        NumberedIsUnique(boxes, i, j);
      }
    }
  }

  /** The nodes never share a key. */
  lemma Together(west: seq<Sealed>, east: seq<Sealed>)
    requires NoReuse(west) && NoReuse(east)
    requires forall b, c | b in west && c in east :: b.key != c.key
    ensures NoReuse(west + east)
  {
    var all, w := west + east, |west|;
    forall i, j | 0 <= i < j < |all|
      ensures all[i].key != all[j].key || all[i].nonce != all[j].nonce
    {
      if i < w <= j {
        assert all[i] in west && all[j] in east;
      }
    }
  }

  lemma NumberedApart(west: seq<Sealed>, east: seq<Sealed>)
    requires Numbered(west) && Numbered(east)
    requires forall b | b in west :: b.key.Own().owner == West
    requires forall b | b in east :: b.key.Own().owner == East
    ensures NoReuse(west + east)
  {
    NumberedNoReuse(west);
    NumberedNoReuse(east);
    forall b, c | b in west && c in east ensures b.key != c.key {
      assert b.key.Own().owner != c.key.Own().owner;
    }
    Together(west, east);
  }

  /** In every run, no key and nonce encrypt two packets of either node, and the packets of one key are numbered
      0, 1, 2, ... in the order they were encrypted. */
  lemma NoncesAreUnique(s: Sys, actions: seq<Action>)
    requires Initial(s) && Run(s, actions).Some?
    ensures Numbered(Run(s, actions).value.west.sealed) && Numbered(Run(s, actions).value.east.sealed)
    ensures NoReuse(Run(s, actions).value.west.sealed + Run(s, actions).value.east.sealed)
  {
    NonceInvHolds(s, actions, West);
    NonceInvHolds(s, actions, East);
    var t := Run(s, actions).value;
    NumberedApart(t.west.sealed, t.east.sealed);
  }

  /** In every run, the header of a data packet carries the nonce of its box, so the packets of a session are
      numbered on the wire as well. */
  lemma HeadersCarryNonces(s: Sys, actions: seq<Action>, side: Side, message: Message)
    requires Initial(s) && Run(s, actions).Some?
    requires message in Run(s, actions).value.At(side).mail && message.Data?
    ensures message.counter == message.box.nonce <= MAX_NONCE
    ensures message.box in Run(s, actions).value.At(side.Other()).sealed
  {
    RunKeepsInv(s, actions);
    assert Genuine(message, Run(s, actions).value.At(side.Other()));
  }

  // ---------------------------------------------------------------------------------------------------------
  // Whatever arrives
  // ---------------------------------------------------------------------------------------------------------

  /** One node by itself: its handlers run, and what arrives need not have been sent by anybody. */
  function RunAlone(n: Node, side: Side, events: seq<Event>): Option<Node>
    decreases |events|
  {
    if events == [] then Some(n)
    else if !Taken(n, side, events[0]).Ok? then None
    else RunAlone(After(n, side, events[0]), side, events[1..])
  }

  lemma {:induction false} AloneKeepsNonces(n: Node, side: Side, events: seq<Event>)
    requires NonceInv(n, side) && Valid(n.peer) && RunAlone(n, side, events).Some?
    ensures NonceInv(RunAlone(n, side, events).value, side)
    decreases |events|
  {
    if events != [] {
      StepKeepsValid(n.peer, events[0], Ephemeral(side, n.drawn));
      NonceKept(n, side, events[0]);
      AloneKeepsNonces(After(n, side, events[0]), side, events[1..]);
    }
  }

  /** A node never uses a nonce twice under one key, however many other nodes there are and whatever they send it. */
  lemma NoncesAreUniqueWhateverArrives(o: Overlay, raddr: Endpoint, side: Side, events: seq<Event>)
    requires RunAlone(NewNode(o, raddr), side, events).Some?
    ensures var sealed := RunAlone(NewNode(o, raddr), side, events).value.sealed; Numbered(sealed) && NoReuse(sealed)
  {
    AloneKeepsNonces(NewNode(o, raddr), side, events);
    NumberedNoReuse(RunAlone(NewNode(o, raddr), side, events).value.sealed);
  }
}
