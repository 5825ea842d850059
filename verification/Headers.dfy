// The packed packet header, the helpers that build it, and the switch that
// tells the server what a received packet asks for.
module Headers {
  import opened Bytes
  import opened Framing

  type Word = w: nat | w < 0x1_0000_0000_0000_0000

  // The 32-byte identifier seen as its four 64-bit words.
  datatype Id = Id(w0: Word, w1: Word, w2: Word, w3: Word)

  type U32 = n: nat | n < 0x1_0000_0000
  type U16 = n: nat | n < 0x1_0000

  datatype Header = Header(
    magic: byte, crc: U32, typ: U32, id: Id, sync0: U32, sync1: U32,
    counter: Word, size: U16, magicData: byte)

  datatype Packet = Packet(header: Header, payload: seq<byte>)

  // ---------------------------------------------------------------- bytes

  function IdBytes(id: Id): (bs: seq<byte>)
    ensures |bs| == 32
  {
    ToLE(id.w0, 8) + ToLE(id.w1, 8) + ToLE(id.w2, 8) + ToLE(id.w3, 8)
  }

  function IdOfBytes(bs: seq<byte>): Id
    requires |bs| == 32
  {
    EncodeDecode(bs[..8]); EncodeDecode(bs[8..16]); EncodeDecode(bs[16..24]); EncodeDecode(bs[24..]);
    PowerOfEight();
    Id(LE(bs[..8]), LE(bs[8..16]), LE(bs[16..24]), LE(bs[24..]))
  }

  lemma PowerOfEight()
    ensures Pow256(1) == 0x100 && Pow256(2) == 0x1_0000 && Pow256(4) == 0x1_0000_0000
    ensures Pow256(8) == 0x1_0000_0000_0000_0000
  {
    assert Pow256(3) == 256 * Pow256(2) && Pow256(2) == 256 * Pow256(1) && Pow256(1) == 256 * Pow256(0);
    assert Pow256(8) == 256 * Pow256(7) && Pow256(7) == 256 * Pow256(6);
    assert Pow256(6) == 256 * Pow256(5) && Pow256(5) == 256 * Pow256(4) && Pow256(4) == 256 * Pow256(3);
  }

  lemma IdFromItsBytes(id: Id)
    ensures IdOfBytes(IdBytes(id)) == id
  {
    hide LE, ToLE, Pow256;
    PowerOfEight();
    var all := IdBytes(id);
    assert all[..8] == ToLE(id.w0, 8) && all[8..16] == ToLE(id.w1, 8);
    assert all[16..24] == ToLE(id.w2, 8) && all[24..] == ToLE(id.w3, 8);
    DecodeEncode(id.w0, 8); DecodeEncode(id.w1, 8); DecodeEncode(id.w2, 8); DecodeEncode(id.w3, 8);
  }

  lemma BytesFromTheirId(bs: seq<byte>)
    requires |bs| == 32
    ensures IdBytes(IdOfBytes(bs)) == bs
  {
    hide LE, ToLE, Pow256;
    EncodeDecode(bs[..8]); EncodeDecode(bs[8..16]); EncodeDecode(bs[16..24]); EncodeDecode(bs[24..]);
    assert bs == bs[..8] + bs[8..16] + bs[16..24] + bs[24..];
  }

  // The two views of the identifier union determine each other.
  lemma IdRoundTrip(id: Id, bs: seq<byte>)
    requires |bs| == 32
    ensures IdOfBytes(IdBytes(id)) == id
    ensures IdBytes(IdOfBytes(bs)) == bs
  {
    hide IdBytes, IdOfBytes;
    IdFromItsBytes(id);
    BytesFromTheirId(bs);
  }

  function HeaderBytes(h: Header): (bs: seq<byte>)
    ensures |bs| == HEADER
  {
    [h.magic] + ToLE(h.crc, 4) + ToLE(h.typ, 4) + IdBytes(h.id)
    + ToLE(h.sync0, 4) + ToLE(h.sync1, 4) + ToLE(h.counter, 8) + ToLE(h.size, 2) + [h.magicData]
  }

  function PacketBytes(p: Packet): seq<byte> {
    HeaderBytes(p.header) + p.payload
  }

  function Field(bs: seq<byte>, at: nat, width: nat): (n: nat)
    requires at + width <= |bs|
    ensures n < Pow256(width)
  {
    EncodeDecode(bs[at..at + width]);
    LE(bs[at..at + width])
  }

  // The struct overlay on the bytes of one framed packet.
  function HeaderOf(bs: seq<byte>): Header
    requires |bs| >= HEADER
  {
    PowerOfEight();
    Header(bs[0], Field(bs, 1, 4), Field(bs, 5, 4), IdOfBytes(bs[9..41]),
           Field(bs, 41, 4), Field(bs, 45, 4), Field(bs, 49, 8), Field(bs, 57, 2), bs[59])
  }

  function PacketOf(bs: seq<byte>): Packet
    requires |bs| >= HEADER
  {
    Packet(HeaderOf(bs), bs[HEADER..])
  }

  lemma FieldsInPlace(h: Header, payload: seq<byte>)
    ensures var bs := HeaderBytes(h) + payload;
      && bs[0] == h.magic && bs[59] == h.magicData && bs[HEADER..] == payload
      && bs[1..5] == ToLE(h.crc, 4) && bs[5..9] == ToLE(h.typ, 4) && bs[9..41] == IdBytes(h.id)
      && bs[41..45] == ToLE(h.sync0, 4) && bs[45..49] == ToLE(h.sync1, 4)
      && bs[49..57] == ToLE(h.counter, 8) && bs[57..59] == ToLE(h.size, 2)
  {
  }

  // The overlay reads back what was stored.
  lemma PacketRoundTrip(p: Packet)
    ensures PacketOf(PacketBytes(p)) == p
  {
    var h := p.header;
    FieldsInPlace(h, p.payload);
    PowerOfEight();
    DecodeEncode(h.crc, 4); DecodeEncode(h.typ, 4); DecodeEncode(h.sync0, 4); DecodeEncode(h.sync1, 4);
    DecodeEncode(h.counter, 8); DecodeEncode(h.size, 2);
    IdRoundTrip(h.id, IdBytes(h.id));
  }

  // -------------------------------------------------------------- builders

  const MSG_CLIENT_ID := 0x01
  const MSG_EVENT := 0x02
  const MSG_WRITE := 0x03
  const MSG_READ := 0x04
  const MSG_SUBSCRIBE := 0x05
  const MSG_UNSUBSCRIBE := 0x06
  const MSG_DEFINE := 0x07
  const MSG_UNDEFINE := 0x08
  const MSG_EVENT_LIST := 0x09
  const MSG_CLIENT_LIST := 0x0a
  const MSG_CHANNEL := 0x0d
  const MSG_CHANNEL_LIST := 0x0e

  // The builders write some fields and leave the rest of the stack variable
  // as it was: `h` is what was there before.
  function FillHeader(h: Header, id: Id, typ: U32): Header {
    h.(magic := MAGIC, magicData := MAGIC_DATA, typ := typ, id := id)
  }

  function FillRequest(h: Header, id: Id, typ: U32): Header {
    FillHeader(h, id, typ).(size := 0)
  }

  // The packet of a write: the size is cut to nine bits, and exactly that
  // many bytes follow the header.
  function WritePacket(h: Header, id: Id, typ: U32, data: seq<byte>): Packet
  {
    var size := |data| % (MAX_PAYLOAD + 1);
    Packet(FillHeader(h, id, typ).(size := size), data[..size])
  }

  // A packet that the framer gives back as it was sent.
  predicate Sendable(p: Packet) {
    && p.header.magic == MAGIC && p.header.magicData == MAGIC_DATA
    && p.header.size == |p.payload| <= MAX_PAYLOAD
  }

  lemma SendableIsFramed(p: Packet)
    requires Sendable(p)
    ensures Framed(PacketBytes(p))
  {
    var bs := PacketBytes(p);
    FieldsInPlace(p.header, p.payload);
    assert bs[57..59][0] == bs[57] && bs[57..59][1] == bs[58];
    assert ToLE(p.header.size, 2)[1..] == ToLE(p.header.size / 256, 1);
  }

  // Everything the helpers build is sendable, whatever the header held
  // before, and a write of at most 511 bytes is carried whole.
  lemma BuiltPacketsAreSendable(h: Header, id: Id, typ: U32, data: seq<byte>)
    ensures Sendable(Packet(FillRequest(h, id, typ), []))
    ensures Sendable(WritePacket(h, id, typ, data))
    ensures WritePacket(h, id, typ, data).payload == data <==> |data| <= MAX_PAYLOAD
  {
  }

  // ------------------------------------------------------------ type field

  type VarType = v: nat | v < 16

  // The bits of the 32-bit type field that the broker looks at.
  datatype Flags = Flags(sync: bool, echo: bool, force: bool, vartype: VarType)

  const VAR_UNDEFINED: VarType := 0x0
  const VAR_INT32: VarType := 0x2
  const VAR_INT64: VarType := 0x3
  const VAR_FLOAT: VarType := 0x4
  const VAR_DOUBLE: VarType := 0x5
  const VAR_ANY: VarType := 0xf

  function Nibble(typ: U32, shift: nat): VarType {
    (typ / Power2(shift)) % 16
  }

  function Power2(k: nat): (p: nat)
    ensures p > 0
  {
    if k == 0 then 1 else 2 * Power2(k - 1)
  }

  predicate Bit(typ: U32, k: nat) {
    (typ / Power2(k)) % 2 == 1
  }

  function FlagsOf(typ: U32): Flags {
    Flags(Bit(typ, 4), Bit(typ, 5), Bit(typ, 7), Nibble(typ, 8))
  }

  // The size that goes with a type when none is given.
  function SizeByType(v: VarType): (n: nat)
    ensures n <= 8
  {
    if v == VAR_FLOAT || v == VAR_INT32 then 4
    else if v == VAR_DOUBLE || v == VAR_INT64 then 8
    else 0
  }

  // -------------------------------------------------------------- requests

  // What a received packet asks the server to do.
  datatype Request =
    | Subscribe(id: Id, flags: Flags, counter: Word)
    | Unsubscribe(id: Id)
    | Define(id: Id, flags: Flags, size: nat)
    | Undefine(id: Id)
    | Write(id: Id, flags: Flags, data: seq<byte>)
    | Read(id: Id)
    | ClientList(sequence: byte)
    | EventList(sequence: byte)
    | Hello(id: Id, major: U32, minor: U32)
    | Announce(id: Id, port: U16, ticketFlags: U32)
    | TicketRequest(id: Id)
    | ChannelList(sequence: byte)
    | Unknown

  // What lies in the receive buffer behind a packet: enough for a ticket.
  type Tail = bs: seq<byte> | |bs| >= 10 witness seq(10, _ => 0)

  // The switch over the message nibble. The ticket of an announcement is
  // read behind the header whatever the size field says, so a payload that
  // is too short for one runs on into `behind`.
  function RequestOf(p: Packet, behind: Tail): Request
  {
    var h := p.header;
    var msg := Nibble(h.typ, 0);
    var sequence := h.id.w0 % 256;
    if msg == MSG_SUBSCRIBE then Subscribe(h.id, FlagsOf(h.typ), h.counter)
    else if msg == MSG_UNSUBSCRIBE then Unsubscribe(h.id)
    else if msg == MSG_DEFINE then Define(h.id, FlagsOf(h.typ), |p.payload|)
    else if msg == MSG_UNDEFINE then Undefine(h.id)
    else if msg == MSG_WRITE then Write(h.id, FlagsOf(h.typ), p.payload)
    else if msg == MSG_READ then Read(h.id)
    else if msg == MSG_CLIENT_LIST then ClientList(sequence)
    else if msg == MSG_EVENT_LIST then EventList(sequence)
    else if msg == MSG_CLIENT_ID then Hello(h.id, h.sync0, h.sync1)
    else if msg == MSG_CHANNEL then
      PowerOfEight();
      if Nibble(h.typ, 12) == 1 then Announce(h.id, Field(p.payload + behind, 4, 2), Field(p.payload + behind, 6, 4))
      else if Nibble(h.typ, 12) == 2 then TicketRequest(h.id)
      else Unknown
    else if msg == MSG_CHANNEL_LIST then ChannelList(sequence)
    else Unknown
  }
}
