/** The life of the inbound buffers: the sockets' readers take them from the pool, receive into them and dispatch
    them to the peers' channels, the peers' loops use them and return them.  Every event is one step of one
    goroutine, and any interleaving is a run. */
module InboundPath {
  import opened Options
  import opened Bytes
  import opened Blocks
  import opened Header
  import opened Custody
  import PeerMachine

  const INBOUND_SIZE := PeerMachine.INBOUND_SIZE
  const HANDSHAKE_SIZE := PeerMachine.HANDSHAKE_SIZE

  type Endpoint = PeerMachine.Endpoint
  type PeerId = Uint32

  /** What is in a buffer: the received bytes, the memory behind the slice for decrypted data and the length of that
      slice, and the other fields. */
  datatype Content = Content(
    bytes: Block, memory: seq<Byte>, length: nat, size: nat, header: Fields, raddr: Option<Endpoint>,
    peer: Option<PeerId>)

  datatype Place =
    | Reader(index: nat)
    | Sending(index: nat)     // a reader that waits for room in a handshake channel
    | Inbox(id: PeerId)
    | DataLoop(id: PeerId)
    | Handshakes(id: PeerId)
    | HandshakeLoop(id: PeerId)

  datatype Sys<!B> = Sys(store: Store<Place, B, Content>, peers: set<PeerId>, running: set<PeerId>,
                         arrived: set<(seq<Byte>, Endpoint)>)
  {
    function At(p: Place): seq<B> {
      store.ledger.At(p)
    }
  }

  datatype Event<!B> =
    | Get(reader: nat, buffer: B)
    | Collect(buffer: B)
    | ReadFails(reader: nat)
    | Read(reader: nat, datagram: seq<Byte>, from: Endpoint)
    | Dispatch(reader: nat)
    | Resume(reader: nat)
    | TakeData(id: PeerId)
    | Opened(id: PeerId, plain: seq<Byte>)
    | NotOpened(id: PeerId)
    | TakeHandshake(id: PeerId)
    | HandshakeRead(id: PeerId)
    | FlushData(id: PeerId)
    | FlushHandshake(id: PeerId)
    | Running(id: PeerId, on: bool)
    | Known(id: PeerId, on: bool)

  // ---------------------------------------------------------------------------------------------------------
  // Steps
  // ---------------------------------------------------------------------------------------------------------

  function Made0(): Content {
    Content(Zeros(BUFFER_SIZE), Zeros(BUFFER_SIZE), BUFFER_SIZE, 0, Fields(0, 0, 0, 0, 0), None, None)
  }

  /** PutInboundBuffer zeroes what its slices show. */
  function Cleared(c: Content): Content {
    var shown := if c.length <= |c.memory| then c.length else |c.memory|;
    Content(Zeros(BUFFER_SIZE), Zeros(shown) + c.memory[shown..], c.length, 0, Made(0, 0, 0), None, None)
  }

  /** What the socket leaves in a buffer: a datagram cut to the buffer's size, over what was there. */
  function Received(c: Content, datagram: seq<Byte>, from: Endpoint): Content {
    c.(bytes := Overwritten(c.bytes, datagram), size := |Cut(datagram)|, raddr := Some(from))
  }

  /** Decrypting appends to the emptied slice: in the memory it has if that is large enough. */
  function Decrypted(c: Content, plain: seq<Byte>): Content {
    c.(memory := if |plain| <= |c.memory| then plain + c.memory[|plain|..] else plain, length := |plain|)
  }

  /** A failed decryption leaves a nil slice. */
  function Nil(c: Content): Content {
    c.(memory := [], length := 0)
  }

  function AfterDecrypt(c: Content, plain: Option<seq<Byte>>): Content {
    if plain.None? then Nil(c) else Decrypted(c, plain.value)
  }

  /** What the cipher makes of the bytes behind the header. */
  function Plain(c: Content, decrypt: (nat, seq<Byte>) -> Option<seq<Byte>>): Option<seq<Byte>>
    requires HEADER_LEN <= c.size <= BUFFER_SIZE
  {
    decrypt(c.header.counter, c.bytes[HEADER_LEN..c.size])
  }

  function Parsed(c: Content): Content {
    c.(header := FieldsOf(c.bytes))
  }

  /** A handshake or data message that names a known peer. */
  predicate ForPeer(s: Sys, b: Block) {
    && Accepted(b)
    && FieldsOf(b).messageType in {HANDSHAKE, DATA}
    && FieldsOf(b).senderIndex in s.peers
  }

  predicate Holds<B>(s: Sys<B>, p: Place) {
    s.At(p) != [] && s.store.Next(p) in s.store.contents
  }

  function First<B>(s: Sys<B>, p: Place): Content
    requires Holds(s, p)
  {
    s.store.contents[s.store.Next(p)]
  }

  function PutFirst<B>(s: Sys<B>, p: Place, c: Content): Sys<B>
    requires Holds(s, p)
  {
    s.(store := s.store.Put(p, Cleared(c)))
  }

  function Filling<B>(s: Sys<B>, p: Place, c: Content): Sys<B>
    requires Holds(s, p)
  {
    s.(store := s.store.Fill(p, c))
  }

  /** The buffer is returned with c in it. */
  function Used<B>(s: Sys<B>, p: Place, c: Content): Sys<B>
    requires Holds(s, p)
  {
    PutFirst(Filling(s, p, c), p, c)
  }

  function Take<B>(s: Sys<B>, p: Place, q: Place): Sys<B>
    requires Holds(s, p) && p != q
  {
    s.(store := s.store.Move(p, q, First(s, p)))
  }

  function Forgotten<B>(s: Sys<B>, p: Place): Sys<B>
    requires Holds(s, p)
  {
    s.(store := s.store.Lose(p, First(s, p)))
  }

  /** Peer.InboundPacket. */
  function Delivered<B>(s: Sys<B>, p: Place, id: PeerId): Sys<B>
    requires p.Reader? && Holds(s, p)
  {
    if id !in s.running then PutFirst(s, p, First(s, p))
    else if |s.At(Inbox(id))| < INBOUND_SIZE then Take(s, p, Inbox(id))
    else Forgotten(s, p)
  }

  /** A handshake: the reader waits if there is no room for it. */
  function HandedOver<B>(s: Sys<B>, p: Place, id: PeerId): Sys<B>
    requires p.Reader? && Holds(s, p)
  {
    if id !in s.running then Forgotten(s, p)
    else if |s.At(Handshakes(id))| < HANDSHAKE_SIZE then Take(s, p, Handshakes(id))
    else Take(s, p, Sending(p.index))
  }

  /** The switch on the message type. */
  function Switched<B>(s: Sys<B>, p: Place): Sys<B>
    requires p.Reader? && Holds(s, p)
  {
    var c := First(s, p);
    var id := c.header.senderIndex;
    if c.header.messageType !in {HANDSHAKE, DATA} || id !in s.peers then PutFirst(s, p, c) else
    var addressed := Filling(s, p, c.(peer := Some(id)));
    if c.header.messageType == DATA then Delivered(addressed, p, id) else HandedOver(addressed, p, id)
  }

  function Dispatched<B>(s: Sys<B>, p: Place): Sys<B>
    requires p.Reader? && Holds(s, p)
  {
    var c := First(s, p);
    var parsed := Filling(s, p, Parsed(c));
    if !Accepted(c.bytes) then PutFirst(parsed, p, Parsed(c)) else Switched(parsed, p)
  }

  /** Peer.flushInboundQueue and Peer.flushHandshakeQueue return what is queued, one buffer after the other. */
  function Flushed<B>(s: Sys<B>, q: Place): Sys<B>
    decreases |s.At(q)|
  {
    if Holds(s, q) then Flushed(PutFirst(s, q, First(s, q)), q) else s
  }

  function Member(ids: set<PeerId>, id: PeerId, on: bool): set<PeerId> {
    if on then ids + {id} else ids - {id}
  }

  /** What a goroutine waits for: a buffer in its channel, in its hands nothing else. */
  predicate Enabled<B>(s: Sys<B>, e: Event<B>) {
    match e
    case Get(i, b) =>
      s.At(Reader(i)) == [] && s.At(Sending(i)) == [] && (b in s.store.ledger.pool || b !in s.store.contents)
    case Collect(b) => b in s.store.ledger.pool
    case ReadFails(i) => Holds(s, Reader(i)) && First(s, Reader(i)).raddr.None?
    case Read(i, _, _) => Holds(s, Reader(i)) && First(s, Reader(i)).raddr.None?
    case Dispatch(i) => Holds(s, Reader(i)) && First(s, Reader(i)).raddr.Some? && s.At(Sending(i)) == []
    case Resume(i) =>
      && Holds(s, Sending(i)) && First(s, Sending(i)).peer.Some?
      && |s.At(Handshakes(First(s, Sending(i)).peer.value))| < HANDSHAKE_SIZE
    case TakeData(id) => s.At(DataLoop(id)) == [] && Holds(s, Inbox(id))
    case Opened(id, _) => Holds(s, DataLoop(id))
    case NotOpened(id) => Holds(s, DataLoop(id))
    case TakeHandshake(id) => s.At(HandshakeLoop(id)) == [] && Holds(s, Handshakes(id))
    case HandshakeRead(id) => Holds(s, HandshakeLoop(id))
    case FlushData(id) => Holds(s, Inbox(id))
    case FlushHandshake(id) => Holds(s, Handshakes(id))
    case Running(_, _) => true
    case Known(_, _) => true
  }

  function Apply<B>(s: Sys<B>, e: Event<B>): Sys<B>
    requires Enabled(s, e)
  {
    match e
    case Get(i, b) => s.(store := s.store.Get(Reader(i), b, Made0()))
    case Collect(b) => s.(store := s.store.Collect(b))
    case ReadFails(i) => PutFirst(s, Reader(i), First(s, Reader(i)))
    case Read(i, d, from) =>
      Filling(s, Reader(i), Received(First(s, Reader(i)), d, from)).(arrived := s.arrived + {(Cut(d), from)})
    case Dispatch(i) => Dispatched(s, Reader(i))
    case Resume(i) => Take(s, Sending(i), Handshakes(First(s, Sending(i)).peer.value))
    case TakeData(id) => Take(s, Inbox(id), DataLoop(id))
    case Opened(id, plain) => Used(s, DataLoop(id), Decrypted(First(s, DataLoop(id)), plain))
    case NotOpened(id) => Used(s, DataLoop(id), Nil(First(s, DataLoop(id))))
    case TakeHandshake(id) => Take(s, Handshakes(id), HandshakeLoop(id))
    case HandshakeRead(id) => PutFirst(s, HandshakeLoop(id), First(s, HandshakeLoop(id)))
    case FlushData(id) => PutFirst(s, Inbox(id), First(s, Inbox(id)))
    case FlushHandshake(id) => PutFirst(s, Handshakes(id), First(s, Handshakes(id)))
    case Running(id, on) => s.(running := Member(s.running, id, on))
    case Known(id, on) => s.(peers := Member(s.peers, id, on))
  }

  // ---------------------------------------------------------------------------------------------------------
  // The invariant
  // ---------------------------------------------------------------------------------------------------------

  /** No trace of earlier use. */
  predicate Clean(c: Content) {
    && AllZero(c.bytes) && AllZero(c.memory) && c.length <= |c.memory|
    && c.size == 0 && c.raddr.None? && c.peer.None?
    && (c.header == Made(0, 0, 0) || c.header == Fields(0, 0, 0, 0, 0))
  }

  /** A datagram that arrived, and behind it nothing but zeros. */
  predicate Filled(c: Content, arrived: set<(seq<Byte>, Endpoint)>) {
    && c.raddr.Some? && c.size <= BUFFER_SIZE
    && AllZero(c.bytes[c.size..]) && AllZero(c.memory) && c.length <= |c.memory|
    && (c.bytes[..c.size], c.raddr.value) in arrived
  }

  predicate Deliverable(c: Content, id: PeerId, messageType: Byte, arrived: set<(seq<Byte>, Endpoint)>) {
    && Filled(c, arrived) && HEADER_LEN <= c.size
    && Accepted(c.bytes) && c.header == FieldsOf(c.bytes)
    && c.header.messageType == messageType && c.header.senderIndex == id && c.peer == Some(id)
  }

  predicate Fits(p: Place, c: Content, arrived: set<(seq<Byte>, Endpoint)>) {
    match p
    case Reader(_) => Clean(c) || Filled(c, arrived)
    case Sending(_) => c.peer.Some? && Deliverable(c, c.peer.value, HANDSHAKE, arrived)
    case Inbox(id) => Deliverable(c, id, DATA, arrived)
    case DataLoop(id) => Deliverable(c, id, DATA, arrived)
    case Handshakes(id) => Deliverable(c, id, HANDSHAKE, arrived)
    case HandshakeLoop(id) => Deliverable(c, id, HANDSHAKE, arrived)
  }

  function Fit(arrived: set<(seq<Byte>, Endpoint)>): (Place, Content) -> bool {
    (p, c) => Fits(p, c, arrived)
  }

  function Capacity(p: Place): nat {
    match p
    case Inbox(_) => INBOUND_SIZE
    case Handshakes(_) => HANDSHAKE_SIZE
    case _ => 1
  }

  predicate InCapacity<B>(l: Ledger<Place, B>) {
    forall p | p in l.held :: |l.held[p]| <= Capacity(p)
  }

  ghost predicate Inv<B>(s: Sys<B>) {
    && Kept(s.store, Clean, Fit(s.arrived))
    && InCapacity(s.store.ledger)
  }

  ghost predicate Initial<B>(s: Sys<B>) {
    Empty(s.store.ledger) && s.store.contents == map[] && s.arrived == {}
  }

  ghost predicate IsRun<B>(s: Sys<B>, events: seq<Event<B>>)
    decreases |events|
  {
    events == [] || (Enabled(s, events[0]) && IsRun(Apply(s, events[0]), events[1..]))
  }

  ghost function Run<B>(s: Sys<B>, events: seq<Event<B>>): Sys<B>
    requires IsRun(s, events)
    decreases |events|
  {
    if events == [] then s else Run(Apply(s, events[0]), events[1..])
  }

  // ---------------------------------------------------------------------------------------------------------
  // What Parse sees of a datagram
  // ---------------------------------------------------------------------------------------------------------

  /** Parse is given the whole buffer.  Because the buffer is zero behind the datagram, it nevertheless accepts
      exactly the datagrams that contain a whole header, and reads their fields. */
  lemma ParseSeesDatagram(b: Block, n: nat)
    requires n <= BUFFER_SIZE && AllZero(b[n..])
    ensures Accepted(b) <==> Accepted(b[..n])
    ensures Accepted(b) ==> n >= HEADER_LEN && FieldsOf(b[..n]) == FieldsOf(b)
  {
    if n < HEADER_LEN {
      assert b[n..][15 - n] == 0;
      assert b[14..16] == [b[14], b[15]];
      assert Number(b[14..16]) == Number([b[14]]) * 256 + b[15] by {
        assert b[14..16][..1] == [b[14]];
      }
      assert Number(b[14..16]) % 256 == 0 && PADDING % 256 == 0xed;
    } else {
      var s := b[..n];
      assert s[2..6] == b[2..6] && s[6..14] == b[6..14] && s[14..16] == b[14..16];
    }
  }

  lemma ReceivedIsFilled(c: Content, datagram: seq<Byte>, from: Endpoint)
    requires Clean(c)
    ensures Filled(Received(c, datagram, from), {(Cut(datagram), from)})
  {
    ZerosBehind(c.bytes, datagram);
  }

  /** Zeroing the visible slice is enough, since what lies behind it was never written. */
  lemma ClearedIsClean(c: Content)
    requires c.length <= |c.memory| && AllZero(c.memory[c.length..])
    ensures Clean(Cleared(c))
  {
    var m := Zeros(c.length) + c.memory[c.length..];
    forall i | 0 <= i < |m| ensures m[i] == 0 {
      if i >= c.length {
        assert m[i] == c.memory[c.length..][i - c.length];
      }
    }
  }

  // ---------------------------------------------------------------------------------------------------------
  // Every step keeps the invariant
  // ---------------------------------------------------------------------------------------------------------

  lemma FirstFits<B>(s: Sys<B>, p: Place)
    requires Inv(s) && s.At(p) != []
    ensures Holds(s, p) && Fits(p, First(s, p), s.arrived)
    ensures AllZero(First(s, p).memory) && First(s, p).length <= |First(s, p).memory|
  {
    assert p in s.store.ledger.held && s.store.Next(p) in s.store.ledger.held[p];
    assert Fit(s.arrived)(p, First(s, p));
  }

  lemma InRange<B>(s: Sys<B>, p: Place)
    requires Inv(s) && s.At(p) != [] && !p.Reader?
    ensures Holds(s, p) && HEADER_LEN <= First(s, p).size <= BUFFER_SIZE
  {
    FirstFits(s, p);
  }

  lemma FitsMore(p: Place, c: Content, arrived: set<(seq<Byte>, Endpoint)>, more: set<(seq<Byte>, Endpoint)>)
    requires Fits(p, c, arrived) && arrived <= more
    ensures Fits(p, c, more)
  {
  }

  lemma MoreArrived<B>(s: Sys<B>, arrived: set<(seq<Byte>, Endpoint)>)
    requires Inv(s) && s.arrived <= arrived
    ensures Inv(s.(arrived := arrived))
  {
    forall p, b | p in s.store.ledger.held && b in s.store.ledger.held[p]
      ensures b in s.store.contents && Fit(arrived)(p, s.store.contents[b])
    {
      assert Fit(s.arrived)(p, s.store.contents[b]);
      FitsMore(p, s.store.contents[b], s.arrived, arrived);
    }
    assert Kept(s.store, Clean, Fit(arrived));
  }

  lemma PutKeepsInv<B>(s: Sys<B>, p: Place, c: Content)
    requires Inv(s) && Holds(s, p) && c.length <= |c.memory| && AllZero(c.memory[c.length..])
    ensures Inv(PutFirst(s, p, c))
  {
    ClearedIsClean(c);
    StorePutKeeps(s.store, Clean, Fit(s.arrived), p, Cleared(c));
  }

  lemma MoveKeepsInv<B>(s: Sys<B>, p: Place, q: Place, c: Content)
    requires Inv(s) && Holds(s, p) && p != q && Fits(q, c, s.arrived) && |s.At(q)| < Capacity(q)
    ensures Inv(s.(store := s.store.Move(p, q, c)))
  {
    StoreMoveKeeps(s.store, Clean, Fit(s.arrived), p, q, c);
  }

  lemma ForgetKeepsInv<B>(s: Sys<B>, p: Place)
    requires Inv(s) && Holds(s, p)
    ensures Inv(Forgotten(s, p))
  {
    StoreLoseKeeps(s.store, Clean, Fit(s.arrived), p, First(s, p));
  }

  lemma FillKeepsInv<B>(s: Sys<B>, p: Place, c: Content)
    requires Inv(s) && Holds(s, p) && Fits(p, c, s.arrived)
    ensures Inv(Filling(s, p, c)) && First(Filling(s, p, c), p) == c
  {
    FillKeeps(s.store, Clean, Fit(s.arrived), p, c);
  }

  lemma DeliveryKeepsInv<B>(s: Sys<B>, p: Place, id: PeerId)
    requires p.Reader? && Holds(s, p) && Inv(s) && Deliverable(First(s, p), id, DATA, s.arrived)
    ensures Inv(Delivered(s, p, id))
  {
    if id !in s.running {
      PutKeepsInv(s, p, First(s, p));
    } else if |s.At(Inbox(id))| < INBOUND_SIZE {
      MoveKeepsInv(s, p, Inbox(id), First(s, p));
    } else {
      ForgetKeepsInv(s, p);
    }
  }

  lemma HandoverKeepsInv<B>(s: Sys<B>, p: Place, id: PeerId)
    requires p.Reader? && Holds(s, p) && Inv(s) && Deliverable(First(s, p), id, HANDSHAKE, s.arrived)
    requires s.At(Sending(p.index)) == []
    ensures Inv(HandedOver(s, p, id))
  {
    if id !in s.running {
      ForgetKeepsInv(s, p);
    } else if |s.At(Handshakes(id))| < HANDSHAKE_SIZE {
      MoveKeepsInv(s, p, Handshakes(id), First(s, p));
    } else {
      MoveKeepsInv(s, p, Sending(p.index), First(s, p));
    }
  }

  lemma ResumeKeepsInv<B>(s: Sys<B>, i: nat)
    requires Inv(s) && Enabled(s, Event<B>.Resume(i))
    ensures Inv(Take(s, Sending(i), Handshakes(First(s, Sending(i)).peer.value)))
  {
    FirstFits(s, Sending(i));
    MoveKeepsInv(s, Sending(i), Handshakes(First(s, Sending(i)).peer.value), First(s, Sending(i)));
  }

  lemma SwitchKeepsInv<B>(s: Sys<B>, p: Place)
    requires p.Reader? && Holds(s, p) && s.At(Sending(p.index)) == [] && Inv(s)
    requires var c := First(s, p); Filled(c, s.arrived) && Accepted(c.bytes) && c.header == FieldsOf(c.bytes)
    ensures Inv(Switched(s, p))
  {
    var c := First(s, p);
    var id := c.header.senderIndex;
    var addressed := c.(peer := Some(id));
    if c.header.messageType !in {HANDSHAKE, DATA} || id !in s.peers {
      PutKeepsInv(s, p, c);
    } else {
      ParseSeesDatagram(c.bytes, c.size);
      FillKeepsInv(s, p, addressed);
      if c.header.messageType == DATA {
        DeliveryKeepsInv(Filling(s, p, addressed), p, id);
      } else {
        HandoverKeepsInv(Filling(s, p, addressed), p, id);
      }
    }
  }

  lemma DispatchKeepsInv<B>(s: Sys<B>, i: nat)
    requires Inv(s) && Enabled(s, Event<B>.Dispatch(i))
    ensures Inv(Dispatched(s, Reader(i)))
  {
    var p := Reader(i);
    FirstFits(s, p);
    var c := Parsed(First(s, p));
    FillKeepsInv(s, p, c);
    if Accepted(c.bytes) {
      SwitchKeepsInv(Filling(s, p, c), p);
    } else {
      PutKeepsInv(Filling(s, p, c), p, c);
    }
  }

  lemma GetKeepsInv<B>(s: Sys<B>, i: nat, b: B)
    requires Inv(s) && Enabled(s, Event.Get(i, b))
    ensures Inv(s.(store := s.store.Get(Reader(i), b, Made0())))
  {
    StoreGetKeeps(s.store, Clean, Fit(s.arrived), Reader(i), b, Made0());
  }

  lemma ReadKeepsInv<B>(s: Sys<B>, e: Event<B>)
    requires e.Read? && Inv(s) && Enabled(s, e)
    ensures Inv(Apply(s, e))
  {
    var p := Reader(e.reader);
    FirstFits(s, p);
    var t := s.(arrived := s.arrived + {(Cut(e.datagram), e.from)});
    MoreArrived(s, t.arrived);
    ReceivedIsFilled(First(s, p), e.datagram, e.from);
    FillKeeps(t.store, Clean, Fit(t.arrived), p, Received(First(s, p), e.datagram, e.from));
  }

  lemma UseKeepsInv<B>(s: Sys<B>, p: Place, c: Content)
    requires Inv(s) && Holds(s, p) && c.length <= |c.memory| && AllZero(c.memory[c.length..])
    ensures Inv(Used(s, p, c))
  {
    PutKeepsInv(s, p, c);
    assert s.store.contents[s.store.Next(p) := c][s.store.Next(p) := Cleared(c)] ==
           s.store.contents[s.store.Next(p) := Cleared(c)];
  }

  lemma OpenedKeepsInv<B>(s: Sys<B>, id: PeerId, plain: seq<Byte>)
    requires Inv(s) && Holds(s, DataLoop(id))
    ensures Inv(Used(s, DataLoop(id), Decrypted(First(s, DataLoop(id)), plain)))
  {
    FirstFits(s, DataLoop(id));
    var c := First(s, DataLoop(id));
    var d := Decrypted(c, plain);
    assert d.memory[d.length..] == if |plain| <= |c.memory| then c.memory[|plain|..] else [];
    UseKeepsInv(s, DataLoop(id), d);
  }

  /** The steps after which a buffer of p is back in the pool. */
  lemma ReturnKeepsInv<B>(s: Sys<B>, p: Place)
    requires Inv(s) && Holds(s, p)
    ensures Inv(PutFirst(s, p, First(s, p)))
    ensures Inv(Used(s, p, Nil(First(s, p))))
  {
    FirstFits(s, p);
    PutKeepsInv(s, p, First(s, p));
    UseKeepsInv(s, p, Nil(First(s, p)));
  }

  lemma TakeKeepsInv<B>(s: Sys<B>, p: Place, q: Place)
    requires Inv(s) && Holds(s, p) && s.At(q) == []
    requires (p.Inbox? && q == DataLoop(p.id)) || (p.Handshakes? && q == HandshakeLoop(p.id))
    ensures Inv(Take(s, p, q))
  {
    FirstFits(s, p);
    MoveKeepsInv(s, p, q, First(s, p));
  }

  lemma StepKeepsInv<B>(s: Sys<B>, e: Event<B>)
    requires Inv(s) && Enabled(s, e)
    ensures Inv(Apply(s, e))
  {
    match e
    case Get(i, b) => GetKeepsInv(s, i, b);
    case Collect(b) => CollectKeeps(s.store, Clean, Fit(s.arrived), b);
    case ReadFails(i) => ReturnKeepsInv(s, Reader(i));
    case Read(_, _, _) => ReadKeepsInv(s, e);
    case Dispatch(i) => DispatchKeepsInv(s, i);
    case Resume(i) => ResumeKeepsInv(s, i);
    case TakeData(id) => TakeKeepsInv(s, Inbox(id), DataLoop(id));
    case Opened(id, plain) => OpenedKeepsInv(s, id, plain);
    case NotOpened(id) => ReturnKeepsInv(s, DataLoop(id));
    case TakeHandshake(id) => TakeKeepsInv(s, Handshakes(id), HandshakeLoop(id));
    case HandshakeRead(id) => ReturnKeepsInv(s, HandshakeLoop(id));
    case FlushData(id) => ReturnKeepsInv(s, Inbox(id));
    case FlushHandshake(id) => ReturnKeepsInv(s, Handshakes(id));
    case Running(_, _) =>
    case Known(_, _) =>
  }

  lemma {:induction false} RunKeepsInv<B>(s: Sys<B>, events: seq<Event<B>>)
    requires Inv(s) && IsRun(s, events)
    ensures Inv(Run(s, events))
    decreases |events|
  {
    if events != [] {
      StepKeepsInv(s, events[0]);
      RunKeepsInv(Apply(s, events[0]), events[1..]);
    }
  }

  /** Flushing a channel is a run, and leaves it empty. */
  lemma {:induction false} FlushIsRun<B>(s: Sys<B>, id: PeerId, data: bool) returns (events: seq<Event<B>>)
    requires Inv(s)
    ensures var q := if data then Inbox(id) else Handshakes(id);
            IsRun(s, events) && Run(s, events) == Flushed(s, q) && Flushed(s, q).At(q) == []
    decreases |s.At(if data then Inbox(id) else Handshakes(id))|
  {
    var q := if data then Inbox(id) else Handshakes(id);
    if s.At(q) == [] {
      events := [];
    } else {
      FirstFits(s, q);
      ReturnKeepsInv(s, q);
      var e: Event<B> := if data then FlushData(id) else FlushHandshake(id);
      assert Apply(s, e) == PutFirst(s, q, First(s, q));
      var rest := FlushIsRun(Apply(s, e), id, data);
      events := [e] + rest;
      assert events[1..] == rest;
    }
  }

  lemma InitialInv<B>(s: Sys<B>)
    requires Initial(s)
    ensures Inv(s)
  {
    assert Total(s.store.ledger.held) == multiset{};
  }

  // ---------------------------------------------------------------------------------------------------------
  // Results
  // ---------------------------------------------------------------------------------------------------------

  /** Whenever a peer's loop slices in[16:size], the bounds are in range, and what it slices is the part behind the
      header of one datagram that arrived from raddr, which Parse accepts by itself and which names this peer and
      the counter in the header. */
  lemma SlicesAreInRange<B>(start: Sys<B>, events: seq<Event<B>>, p: Place, b: B)
    requires Initial(start) && IsRun(start, events)
    requires !p.Reader? && !p.Sending? && b in Run(start, events).At(p)
    ensures b in Run(start, events).store.contents
    ensures var c := Run(start, events).store.contents[b];
            && HEADER_LEN <= c.size <= BUFFER_SIZE && c.raddr.Some? && c.peer == Some(p.id)
            && (c.bytes[..c.size], c.raddr.value) in Run(start, events).arrived
            && Accepted(c.bytes[..c.size]) && c.header == FieldsOf(c.bytes[..c.size])
            && c.header.senderIndex == p.id
            && c.header.messageType == (if p.Inbox? || p.DataLoop? then DATA else HANDSHAKE)
  {
    InitialInv(start);
    RunKeepsInv(start, events);
    var s := Run(start, events);
    assert b in s.store.ledger.held[p] && Fit(s.arrived)(p, s.store.contents[b]);
    ParseSeesDatagram(s.store.contents[b].bytes, s.store.contents[b].size);
  }

  /** A step that drops the buffer it dispatches: a handshake for a peer that is not running, or a data packet for a
      running peer whose channel is full. */
  predicate Drops<B>(s: Sys<B>, e: Event<B>)
    requires Enabled(s, e)
  {
    e.Dispatch? &&
    var b := First(s, Reader(e.reader)).bytes;
    ForPeer(s, b) &&
    if FieldsOf(b).messageType == HANDSHAKE then FieldsOf(b).senderIndex !in s.running
    else FieldsOf(b).senderIndex in s.running && |s.At(Inbox(FieldsOf(b).senderIndex))| >= INBOUND_SIZE
  }

  ghost function Dropped<B>(s: Sys<B>, events: seq<Event<B>>): nat
    requires IsRun(s, events)
    decreases |events|
  {
    if events == [] then 0 else
      (if Drops(s, events[0]) then 1 else 0) + Dropped(Apply(s, events[0]), events[1..])
  }

  lemma SwitchDrops<B>(s: Sys<B>, p: Place)
    requires p.Reader? && Holds(s, p)
    ensures var f := First(s, p).header;
            |Switched(s, p).store.ledger.lost| == |s.store.ledger.lost| +
              if f.messageType in {HANDSHAKE, DATA} && f.senderIndex in s.peers &&
                 (if f.messageType == HANDSHAKE then f.senderIndex !in s.running
                  else f.senderIndex in s.running && |s.At(Inbox(f.senderIndex))| >= INBOUND_SIZE)
              then 1 else 0
  {
  }

  lemma OthersLoseNothing<B>(s: Sys<B>, e: Event<B>)
    requires Enabled(s, e) && !e.Dispatch?
    ensures Apply(s, e).store.ledger.lost == s.store.ledger.lost
  {
  }

  lemma StepDrops<B>(s: Sys<B>, e: Event<B>)
    requires Enabled(s, e)
    ensures |Apply(s, e).store.ledger.lost| == |s.store.ledger.lost| + if Drops(s, e) then 1 else 0
  {
    if e.Dispatch? {
      var p := Reader(e.reader);
      SwitchDrops(Filling(s, p, Parsed(First(s, p))), p);
    } else {
      OthersLoseNothing(s, e);
    }
  }

  lemma {:induction false} RunDrops<B>(s: Sys<B>, events: seq<Event<B>>)
    requires IsRun(s, events)
    ensures |Run(s, events).store.ledger.lost| == |s.store.ledger.lost| + Dropped(s, events)
    decreases |events|
  {
    if events != [] {
      StepDrops(s, events[0]);
      RunDrops(Apply(s, events[0]), events[1..]);
    }
  }

  /** In every run the buffers are in order, and those dropped are exactly the handshakes for peers that were not
      running and the packets for full channels. */
  lemma EveryRunIsInOrder<B>(start: Sys<B>, events: seq<Event<B>>)
    requires Initial(start) && IsRun(start, events)
    ensures InOrder(Run(start, events).store, Clean, Dropped(start, events))
  {
    InitialInv(start);
    RunKeepsInv(start, events);
    RunDrops(start, events);
    KeptIsInOrder(Run(start, events).store, Clean, Fit(Run(start, events).arrived), Dropped(start, events));
  }
}
