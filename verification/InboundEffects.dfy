/** Where each step of the inbound path leaves the buffer it handles, told by the datagram and the ledger alone.
    Nothing here speaks of how the steps are written. */
module InboundEffects {
  import opened Options
  import opened Bytes
  import opened Blocks
  import opened Header
  import opened Custody
  import opened InboundPath

  /** The oldest buffer of p is in the pool, without a trace of what was in it. */
  ghost predicate ReturnedClean<B>(s: Sys<B>, t: Sys<B>, p: Place, b: B) {
    Returned(s.store.ledger, t.store.ledger, p, b) && b in t.store.contents && Clean(t.store.contents[b])
  }

  /** The datagram a reader has read. */
  function Datagram<B>(s: Sys<B>, i: nat): seq<Byte>
    requires Holds(s, Reader(i))
  {
    var c := First(s, Reader(i));
    if c.size <= BUFFER_SIZE then c.bytes[..c.size] else c.bytes
  }

  /** What is done with a datagram. */
  datatype Verdict = ToPool | ToChannel(to: Place) | Dropped

  /** Judged by the datagram alone: it goes back if it has no valid header, is neither handshake nor data, names an
      unknown peer, or is data for a stopped one; a handshake for a stopped peer and data for a full channel are
      dropped. */
  function Judged<B>(s: Sys<B>, i: nat): Verdict
    requires Holds(s, Reader(i))
  {
    var d := Datagram(s, i);
    if !Accepted(d) then ToPool else
    var f := FieldsOf(d);
    var id := f.senderIndex;
    if id !in s.peers then ToPool
    else if f.messageType == DATA then
      if id !in s.running then ToPool
      else if |s.At(Inbox(id))| < INBOUND_SIZE then ToChannel(Inbox(id)) else Dropped
    else if f.messageType == HANDSHAKE then
      if id !in s.running then Dropped
      else if |s.At(Handshakes(id))| < HANDSHAKE_SIZE then ToChannel(Handshakes(id)) else ToChannel(Sending(i))
    else ToPool
  }

  /** What the buffer brings along: the received bytes, their header and where they came from. */
  predicate Carries(c: Content, was: Content, d: seq<Byte>) {
    && c.bytes == was.bytes && c.size == was.size && c.raddr == was.raddr
    && |d| >= HEADER_LEN && c.header == FieldsOf(d) && c.peer == Some(FieldsOf(d).senderIndex)
  }

  ghost predicate Obeyed<B>(s: Sys<B>, t: Sys<B>, i: nat, v: Verdict)
    requires Holds(s, Reader(i))
  {
    var b := s.store.Next(Reader(i));
    match v
    case ToPool => ReturnedClean(s, t, Reader(i), b)
    case ToChannel(q) =>
      && Passed(s.store.ledger, t.store.ledger, Reader(i), q, b)
      && b in t.store.contents && Carries(t.store.contents[b], First(s, Reader(i)), Datagram(s, i))
    case Dropped => Gone(s.store.ledger, t.store.ledger, Reader(i), b)
  }

  // ---------------------------------------------------------------------------------------------------------
  // One buffer moves
  // ---------------------------------------------------------------------------------------------------------

  lemma PutReturns<B>(s: Sys<B>, p: Place, c: Content)
    requires Inv(s) && Holds(s, p) && c.length <= |c.memory| && AllZero(c.memory[c.length..])
    ensures ReturnedClean(s, PutFirst(s, p, c), p, s.store.Next(p))
  {
    ClearedIsClean(c);
  }

  lemma TakePasses<B>(s: Sys<B>, p: Place, q: Place)
    requires Holds(s, p) && p != q
    ensures Passed(s.store.ledger, Take(s, p, q).store.ledger, p, q, s.store.Next(p))
    ensures s.store.Next(p) in Take(s, p, q).store.contents
    ensures Take(s, p, q).store.contents[s.store.Next(p)] == First(s, p)
  {
  }

  lemma ForgottenIsGone<B>(s: Sys<B>, p: Place)
    requires Holds(s, p)
    ensures Gone(s.store.ledger, Forgotten(s, p).store.ledger, p, s.store.Next(p))
  {
  }

  /** Filling moves nothing. */
  lemma FillingMovesNothing<B>(s: Sys<B>, p: Place, c: Content)
    requires Holds(s, p)
    ensures var t := Filling(s, p, c);
            && Holds(t, p) && First(t, p) == c && t.store.Next(p) == s.store.Next(p)
            && t.store.ledger == s.store.ledger && t.peers == s.peers && t.running == s.running
  {
  }

  // ---------------------------------------------------------------------------------------------------------
  // Dispatch
  // ---------------------------------------------------------------------------------------------------------

  lemma DeliveredEffect<B>(s: Sys<B>, i: nat, id: PeerId)
    requires Inv(s) && Holds(s, Reader(i))
    ensures var p, t := Reader(i), Delivered(s, Reader(i), id); var b := s.store.Next(p);
            if id !in s.running then ReturnedClean(s, t, p, b)
            else if |s.At(Inbox(id))| < INBOUND_SIZE then
              && Passed(s.store.ledger, t.store.ledger, p, Inbox(id), b)
              && b in t.store.contents && t.store.contents[b] == First(s, p)
            else Gone(s.store.ledger, t.store.ledger, p, b)
  {
    var p := Reader(i);
    FirstFits(s, p);
    if id !in s.running {
      PutReturns(s, p, First(s, p));
    } else if |s.At(Inbox(id))| < INBOUND_SIZE {
      TakePasses(s, p, Inbox(id));
    } else {
      ForgottenIsGone(s, p);
    }
  }

  lemma HandedOverEffect<B>(s: Sys<B>, i: nat, id: PeerId)
    requires Holds(s, Reader(i))
    ensures var p, t := Reader(i), HandedOver(s, Reader(i), id); var b := s.store.Next(p);
            if id !in s.running then Gone(s.store.ledger, t.store.ledger, p, b)
            else
              var q := if |s.At(Handshakes(id))| < HANDSHAKE_SIZE then Handshakes(id) else Sending(i);
              && Passed(s.store.ledger, t.store.ledger, p, q, b)
              && b in t.store.contents && t.store.contents[b] == First(s, p)
  {
    var p := Reader(i);
    if id !in s.running {
      ForgottenIsGone(s, p);
    } else if |s.At(Handshakes(id))| < HANDSHAKE_SIZE {
      TakePasses(s, p, Handshakes(id));
    } else {
      TakePasses(s, p, Sending(i));
    }
  }

  /** A message with a valid header. */
  lemma SwitchedEffect<B>(s: Sys<B>, i: nat, d: seq<Byte>)
    requires Inv(s) && Holds(s, Reader(i)) && d == Datagram(s, i) && Accepted(d)
    requires First(s, Reader(i)).header == FieldsOf(d) && Filled(First(s, Reader(i)), s.arrived)
    ensures Obeyed(s, Switched(s, Reader(i)), i, Judged(s, i))
  {
    var p, c := Reader(i), First(s, Reader(i));
    var id := c.header.senderIndex;
    FirstFits(s, p);
    if c.header.messageType !in {HANDSHAKE, DATA} || id !in s.peers {
      PutReturns(s, p, c);
    } else {
      var addressed := Filling(s, p, c.(peer := Some(id)));
      FillingMovesNothing(s, p, c.(peer := Some(id)));
      FillKeepsInv(s, p, c.(peer := Some(id)));
      var b := s.store.Next(p);
      if c.header.messageType == DATA {
        DeliveredEffect(addressed, i, id);
      } else {
        HandedOverEffect(addressed, i, id);
      }
    }
  }

  /** Parsing changes neither the datagram nor what is to be done with it. */
  lemma ParsingChangesNothing<B>(s: Sys<B>, i: nat)
    requires Holds(s, Reader(i))
    ensures var t := Filling(s, Reader(i), Parsed(First(s, Reader(i))));
            Holds(t, Reader(i)) && Datagram(t, i) == Datagram(s, i) && Judged(t, i) == Judged(s, i)
  {
    FillingMovesNothing(s, Reader(i), Parsed(First(s, Reader(i))));
  }

  lemma ObeyedAfterParsing<B>(s: Sys<B>, u: Sys<B>, i: nat, v: Verdict)
    requires Holds(s, Reader(i))
    requires Holds(Filling(s, Reader(i), Parsed(First(s, Reader(i)))), Reader(i))
    requires Obeyed(Filling(s, Reader(i), Parsed(First(s, Reader(i)))), u, i, v)
    ensures Obeyed(s, u, i, v)
  {
    var p, b := Reader(i), s.store.Next(Reader(i));
    FillingMovesNothing(s, p, Parsed(First(s, p)));
  }

  lemma RefusedEffect<B>(s: Sys<B>, i: nat)
    requires Inv(s) && Holds(s, Reader(i)) && Filled(First(s, Reader(i)), s.arrived)
    requires !Accepted(First(s, Reader(i)).bytes)
    ensures Obeyed(s, PutFirst(s, Reader(i), First(s, Reader(i))), i, Judged(s, i))
  {
    var c := First(s, Reader(i));
    ParseSeesDatagram(c.bytes, c.size);
    FirstFits(s, Reader(i));
    PutReturns(s, Reader(i), c);
  }

  /** Whatever is in the buffer behind the datagram or in its other fields, a dispatch does with it what its datagram
      demands. */
  lemma DispatchEffect<B>(s: Sys<B>, i: nat)
    requires Inv(s) && Enabled(s, Event<B>.Dispatch(i))
    ensures Obeyed(s, Dispatched(s, Reader(i)), i, Judged(s, i))
  {
    var p, c := Reader(i), First(s, Reader(i));
    FirstFits(s, p);
    assert Filled(c, s.arrived);
    ParseSeesDatagram(c.bytes, c.size);
    ParsingChangesNothing(s, i);
    FillingMovesNothing(s, p, Parsed(c));
    FillKeepsInv(s, p, Parsed(c));
    var parsed := Filling(s, p, Parsed(c));
    if Accepted(c.bytes) {
      SwitchedEffect(parsed, i, Datagram(s, i));
    } else {
      RefusedEffect(parsed, i);
    }
    ObeyedAfterParsing(s, Dispatched(s, p), i, Judged(s, i));
  }

  /** A datagram is returned to the pool exactly when it has no valid header, names an unknown peer, is neither
      handshake nor data, or is data for a stopped peer. */
  lemma GoesBackExactly<B>(s: Sys<B>, i: nat)
    requires Inv(s) && Enabled(s, Event<B>.Dispatch(i))
    ensures var d, t := Datagram(s, i), Apply(s, Event<B>.Dispatch(i));
            s.store.Next(Reader(i)) in t.store.ledger.pool <==>
              || !Accepted(d)
              || FieldsOf(d).senderIndex !in s.peers
              || FieldsOf(d).messageType !in {HANDSHAKE, DATA}
              || (FieldsOf(d).messageType == DATA && FieldsOf(d).senderIndex !in s.running)
  {
    DispatchEffect(s, i);
    OneHolder(s.store.ledger, Reader(i), 0);
  }

  /** In every run. */
  lemma DispatchesObeyTheDatagram<B>(start: Sys<B>, events: seq<Event<B>>, i: nat)
    requires Initial(start) && IsRun(start, events) && Enabled(Run(start, events), Event<B>.Dispatch(i))
    ensures var s := Run(start, events); Obeyed(s, Apply(s, Event<B>.Dispatch(i)), i, Judged(s, i))
  {
    InitialInv(start);
    RunKeepsInv(start, events);
    DispatchEffect(Run(start, events), i);
  }

  // ---------------------------------------------------------------------------------------------------------
  // The other steps
  // ---------------------------------------------------------------------------------------------------------

  lemma UseReturns<B>(s: Sys<B>, p: Place, c: Content)
    requires Inv(s) && Holds(s, p) && c.length <= |c.memory| && AllZero(c.memory[c.length..])
    ensures ReturnedClean(s, Used(s, p, c), p, s.store.Next(p))
  {
    ClearedIsClean(c);
  }

  /** Whoever has used a buffer returns it, whatever came of the use; a flush returns the oldest of the channel. */
  lemma ReturnsEffect<B>(s: Sys<B>, e: Event<B>, p: Place)
    requires Inv(s) && Enabled(s, e)
    requires match e
             case ReadFails(i) => p == Reader(i)
             case Opened(id, _) => p == DataLoop(id)
             case NotOpened(id) => p == DataLoop(id)
             case HandshakeRead(id) => p == HandshakeLoop(id)
             case FlushData(id) => p == Inbox(id)
             case FlushHandshake(id) => p == Handshakes(id)
             case _ => false
    ensures s.At(p) != [] && ReturnedClean(s, Apply(s, e), p, s.store.Next(p))
  {
    FirstFits(s, p);
    var c := First(s, p);
    match e
    case Opened(_, plain) =>
      var d := Decrypted(c, plain);
      assert d.memory[d.length..] == if |plain| <= |c.memory| then c.memory[|plain|..] else [];
      UseReturns(s, p, d);
    case NotOpened(_) => UseReturns(s, p, Nil(c));
    case _ => PutReturns(s, p, c);
  }

  /** The loops take the oldest buffer of their channel, unchanged; and a reader that waited hands over its own. */
  lemma TakesEffect<B>(s: Sys<B>, e: Event<B>, p: Place, q: Place)
    requires Inv(s) && Enabled(s, e)
    requires match e
             case TakeData(id) => p == Inbox(id) && q == DataLoop(id)
             case TakeHandshake(id) => p == Handshakes(id) && q == HandshakeLoop(id)
             case Resume(i) => p == Sending(i) && q == Handshakes(First(s, Sending(i)).header.senderIndex)
             case _ => false
    ensures s.At(p) != [] && Passed(s.store.ledger, Apply(s, e).store.ledger, p, q, s.store.Next(p))
    ensures s.store.Next(p) in s.store.contents && Apply(s, e).store.contents == s.store.contents
  {
    FirstFits(s, p);
    TakePasses(s, p, q);
  }

  /** A reader takes a buffer without a trace of earlier use. */
  lemma GettingEffect<B>(s: Sys<B>, i: nat, b: B)
    requires Inv(s) && Enabled(s, Event.Get(i, b))
    ensures var t := Apply(s, Event.Get(i, b));
            && Obtained(s.store.ledger, t.store.ledger, Reader(i), b) && Holds(t, Reader(i))
            && Clean(First(t, Reader(i)))
  {
    assert [b] == s.At(Reader(i)) + [b];
    if b in s.store.ledger.pool {
      assert b in s.store.contents && Clean(s.store.contents[b]);
    }
  }

  /** What a reader reads into it is the datagram, cut to its size, and nothing else. */
  lemma ReadingEffect<B>(s: Sys<B>, i: nat, datagram: seq<Byte>, from: Endpoint)
    requires Holds(s, Reader(i)) && Clean(First(s, Reader(i)))
    ensures Enabled(s, Event<B>.Read(i, datagram, from))
    ensures var t := Apply(s, Event<B>.Read(i, datagram, from));
            && t.store.ledger == s.store.ledger && Holds(t, Reader(i))
            && Datagram(t, i) == Cut(datagram) && First(t, Reader(i)).raddr == Some(from)
            && AllZero(First(t, Reader(i)).bytes[|Cut(datagram)|..])
  {
    ZerosBehind(First(s, Reader(i)).bytes, datagram);
  }

  // ---------------------------------------------------------------------------------------------------------
  // Peers
  // ---------------------------------------------------------------------------------------------------------

  /** Whether this peer was last added or removed. */
  function LastKnown<B>(events: seq<Event<B>>, id: PeerId): Option<bool> {
    if events == [] then None
    else
      var later := LastKnown(events[1..], id);
      if later.Some? then later
      else if events[0].Known? && events[0].id == id then Some(events[0].on) else None
  }

  /** Whether this peer was last started or stopped. */
  function LastSwitched<B>(events: seq<Event<B>>, id: PeerId): Option<bool> {
    if events == [] then None
    else
      var later := LastSwitched(events[1..], id);
      if later.Some? then later
      else if events[0].Running? && events[0].id == id then Some(events[0].on) else None
  }

  lemma StepPeers<B>(s: Sys<B>, e: Event<B>, id: PeerId)
    requires Enabled(s, e)
    ensures var t := Apply(s, e);
            && (id in t.peers <==> if e.Known? && e.id == id then e.on else id in s.peers)
            && (id in t.running <==> if e.Running? && e.id == id then e.on else id in s.running)
            && t.arrived == s.arrived + if e.Read? then {(Cut(e.datagram), e.from)} else {}
  {
  }

  /** In every run a peer is known if it was last added, and runs if it was last started. */
  lemma {:induction false} PeersAreTheLatest<B>(s: Sys<B>, events: seq<Event<B>>, id: PeerId)
    requires IsRun(s, events)
    ensures var t := Run(s, events);
            && (id in t.peers <==>
                  if LastKnown(events, id).Some? then LastKnown(events, id).value else id in s.peers)
            && (id in t.running <==>
                  if LastSwitched(events, id).Some? then LastSwitched(events, id).value else id in s.running)
    decreases |events|
  {
    if events != [] {
      StepPeers(s, events[0], id);
      PeersAreTheLatest(Apply(s, events[0]), events[1..], id);
    }
  }
}
