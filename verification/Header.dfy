/** The 16-byte header of every datagram. */
module Header {
  import opened Bytes

  const VERSION: Byte := 1
  const HEADER_LEN: nat := 16
  const PADDING: nat := 0xfeed

  const HANDSHAKE: Byte := 1
  const DATA: Byte := 2
  const DISCOVERY: Byte := 6
  const PUNCH: Byte := 0xff

  type Uint16 = x: int | 0 <= x < 0x1_0000
  type Uint32 = x: int | 0 <= x < 0x1_0000_0000
  type Uint64 = x: int | 0 <= x < 0x1_0000_0000_0000_0000

  datatype Fields = Fields(version: Byte, messageType: Byte, senderIndex: Uint32, counter: Uint64, padding: Uint16)

  lemma Widths()
    ensures Pow256(2) == 0x1_0000 && Pow256(4) == 0x1_0000_0000 && Pow256(8) == 0x1_0000_0000_0000_0000
  {
    assert Pow256(3) == 0x100_0000;
    assert Pow256(6) == 0x1_0000_0000_0000;
  }

  /** The wire format. */
  function Layout(f: Fields): (r: seq<Byte>)
    ensures |r| == HEADER_LEN
  {
    [f.version, f.messageType] + BigEndian(f.senderIndex, 4) + BigEndian(f.counter, 8) + BigEndian(f.padding, 2)
  }

  function FieldsOf(s: seq<Byte>): Fields
    requires |s| >= HEADER_LEN
  {
    Widths();
    Fields(s[0], s[1], Number(s[2..6]), Number(s[6..14]), Number(s[14..16]))
  }

  /** What Parse takes for a header. */
  predicate Accepted(s: seq<Byte>) {
    |s| >= HEADER_LEN && FieldsOf(s).version == VERSION && FieldsOf(s).padding == PADDING
  }

  function Made(messageType: Byte, index: Uint32, counter: Uint64): Fields {
    Fields(VERSION, messageType, index, counter, PADDING)
  }

  lemma Parts(start: seq<Byte>, index: seq<Byte>, counter: seq<Byte>, padding: seq<Byte>, rest: seq<Byte>)
    requires |start| == 2 && |index| == 4 && |counter| == 8 && |padding| == 2
    ensures var s := start + index + counter + padding + rest;
            s[..2] == start && s[2..6] == index && s[6..14] == counter && s[14..16] == padding
  {
  }

  /** Whatever follows the header, reading it gives back the fields that were written. */
  lemma FieldsOfLayout(f: Fields, rest: seq<Byte>)
    ensures FieldsOf(Layout(f) + rest) == f
  {
    Widths();
    Parts([f.version, f.messageType], BigEndian(f.senderIndex, 4), BigEndian(f.counter, 8), BigEndian(f.padding, 2),
          rest);
    assert (Layout(f) + rest)[..2] == [f.version, f.messageType];
    NumberOfBytes(f.senderIndex, 4);
    NumberOfBytes(f.counter, 8);
    NumberOfBytes(f.padding, 2);
  }

  /** The sixteen bytes: version, type, four bytes of the index, eight of the counter and two of the padding, each
      number with its most significant byte first. */
  lemma WireFormat(f: Fields, rest: seq<Byte>)
    ensures var s := Layout(f) + rest;
            && s[0] == f.version && s[1] == f.messageType
            && (forall i | 2 <= i < 6 :: s[i] == f.senderIndex / Pow256(5 - i) % 256)
            && (forall i | 6 <= i < 14 :: s[i] == f.counter / Pow256(13 - i) % 256)
            && (forall i | 14 <= i < 16 :: s[i] == f.padding / Pow256(15 - i) % 256)
            && s[16..] == rest
  {
    var s := Layout(f) + rest;
    Parts([f.version, f.messageType], BigEndian(f.senderIndex, 4), BigEndian(f.counter, 8), BigEndian(f.padding, 2),
          rest);
    forall i | 2 <= i < 6 ensures s[i] == f.senderIndex / Pow256(5 - i) % 256 {
      ByteOrder(f.senderIndex, 4, i - 2);
      assert s[2..6][i - 2] == s[i];
    }
    forall i | 6 <= i < 14 ensures s[i] == f.counter / Pow256(13 - i) % 256 {
      ByteOrder(f.counter, 8, i - 6);
      assert s[6..14][i - 6] == s[i];
    }
    forall i | 14 <= i < 16 ensures s[i] == f.padding / Pow256(15 - i) % 256 {
      ByteOrder(f.padding, 2, i - 14);
      assert s[14..16][i - 14] == s[i];
    }
    assert s[..2][0] == s[0] && s[..2][1] == s[1];
  }

  /** Writing the fields that were read reproduces the bytes. */
  lemma LayoutOfFields(s: seq<Byte>)
    requires |s| >= HEADER_LEN
    ensures Layout(FieldsOf(s)) == s[..HEADER_LEN]
  {
    BytesOfNumber(s[2..6]);
    BytesOfNumber(s[6..14]);
    BytesOfNumber(s[14..16]);
    assert s[..16] == [s[0], s[1]] + s[2..6] + s[6..14] + s[14..16];
  }

  /** Between (type, index, counter) and the accepted 16-byte strings, encoding is a bijection: a string is accepted
      exactly when it is the encoding of the type, index and counter read from it, and of no others. */
  lemma EncodingIsBijective(s: seq<Byte>, messageType: Byte, index: Uint32, counter: Uint64)
    requires |s| == HEADER_LEN
    ensures Accepted(Layout(Made(messageType, index, counter)))
    ensures s == Layout(Made(messageType, index, counter)) <==>
            Accepted(s) && FieldsOf(s) == Made(messageType, index, counter)
    ensures Accepted(s) <==>
            s == Layout(Made(FieldsOf(s).messageType, FieldsOf(s).senderIndex, FieldsOf(s).counter))
  {
    FieldsOfLayout(Made(messageType, index, counter), []);
    assert Layout(Made(messageType, index, counter)) + [] == Layout(Made(messageType, index, counter));
    LayoutOfFields(s);
    assert s[..HEADER_LEN] == s;
    var own := Made(FieldsOf(s).messageType, FieldsOf(s).senderIndex, FieldsOf(s).counter);
    FieldsOfLayout(own, []);
    assert Layout(own) + [] == Layout(own);
  }

  class Header {
    var version: Byte
    var messageType: Byte
    var senderIndex: Uint32
    var counter: Uint64
    var padding: Uint16

    function View(): Fields
      reads this
    {
      Fields(version, messageType, senderIndex, counter, padding)
    }

    constructor ()
      ensures View() == Fields(0, 0, 0, 0, 0)
    {
      version, messageType, senderIndex, counter, padding := 0, 0, 0, 0, 0;
    }

    method Reset()
      modifies this
      ensures View() == Made(0, 0, 0)
    {
      version := VERSION;
      messageType := 0;
      senderIndex := 0;
      counter := 0;
      padding := PADDING;
    }
  }

  /** Three parts written one behind the other. */
  lemma Spliced(s: seq<Byte>, index: seq<Byte>, counter: seq<Byte>, padding: seq<Byte>)
    requires |s| >= HEADER_LEN && |index| == 4 && |counter| == 8 && |padding| == 2
    ensures var t := s[..2] + index + s[6..]; var u := t[..6] + counter + t[14..];
            u[..14] + padding + u[16..] == s[..2] + index + counter + padding + s[16..]
  {
  }

  /** The fields into the first 16 bytes. */
  method EncodeToSlice(h: Header, b: array<Byte>)
    requires b.Length >= HEADER_LEN
    modifies b
    ensures b[..] == Layout(h.View()) + old(b[HEADER_LEN..])
  {
    b[0] := h.version;
    b[1] := h.messageType;
    ghost var s := b[..];
    PutNumber(b, 2, h.senderIndex, 4);
    PutNumber(b, 6, h.counter, 8);
    PutNumber(b, 14, h.padding, 2);
    Spliced(s, BigEndian(h.senderIndex, 4), BigEndian(h.counter, 8), BigEndian(h.padding, 2));
    assert s[..2] == [h.version, h.messageType] && s[16..] == old(b[HEADER_LEN..]);
  }

  /** Only the first 16 bytes of the slice are touched. */
  method Encode(h: Header?, b: array<Byte>, messageType: Byte, index: Uint32, counter: Uint64) returns (err: bool)
    modifies h, b
    ensures err <==> h == null || b.Length < HEADER_LEN
    ensures err ==> b[..] == old(b[..])
    ensures !err ==> h.View() == Made(messageType, index, counter)
    ensures !err ==> b[..] == Layout(Made(messageType, index, counter)) + old(b[HEADER_LEN..])
  {
    if h == null || b.Length < HEADER_LEN {
      return true;
    }
    h.version := VERSION;
    h.messageType := messageType;
    h.senderIndex := index;
    h.counter := counter;
    h.padding := PADDING;
    EncodeToSlice(h, b);
    return false;
  }

  /** The fields are assigned before they are judged. */
  method Parse(h: Header?, b: array<Byte>) returns (err: bool)
    modifies h
    ensures err <==> h == null || !Accepted(b[..])
    ensures h != null && b.Length >= HEADER_LEN ==> h.View() == FieldsOf(b[..])
    ensures h != null && b.Length < HEADER_LEN ==> h.View() == old(h.View())
  {
    if h == null || b.Length < HEADER_LEN {
      return true;
    }
    Widths();
    h.version := b[0];
    h.messageType := b[1];
    h.senderIndex := Number(b[2..6]);
    h.counter := Number(b[6..14]);
    h.padding := Number(b[14..16]);
    assert b[..][2..6] == b[2..6] && b[..][6..14] == b[6..14] && b[..][14..16] == b[14..16];
    return h.version != VERSION || h.padding != PADDING;
  }
}
