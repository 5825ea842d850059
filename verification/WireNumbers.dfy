// The format on the wire, with its own numbers: where each field lies, which
// number each message has, what each bit of the type word is. The round trips
// elsewhere hold of any format; these lemmas say which one it is.
module WireNumbers {
  import opened Bytes
  import opened Framing
  import opened Headers
  import opened ListPaging
  import opened SyncClock
  import opened Broker
  import Calls = ClientRequests
  import Messages = ServerMessages
  import ReadHandshake

  // A field of a record or header.
  function At(bs: seq<byte>, from: nat, to: nat): nat
    requires from <= to <= |bs|
  {
    LE(bs[from..to])
  }

  // ------------------------------------------------------------------ headers

  lemma IdLayout(id: Id)
    ensures var bs := IdBytes(id);
      At(bs, 0, 8) == id.w0 && At(bs, 8, 16) == id.w1 && At(bs, 16, 24) == id.w2 && At(bs, 24, 32) == id.w3
  {
    PowerOfEight();
    hide ToLE, LE, Pow256;
    FourPieces(ToLE(id.w0, 8), ToLE(id.w1, 8), ToLE(id.w2, 8), ToLE(id.w3, 8));
    DecodeEncode(id.w0, 8); DecodeEncode(id.w1, 8); DecodeEncode(id.w2, 8); DecodeEncode(id.w3, 8);
  }

  lemma FourPieces(a: seq<byte>, b: seq<byte>, c: seq<byte>, d: seq<byte>)
    requires |a| == |b| == |c| == |d| == 8
    ensures var bs := a + b + c + d; bs[0..8] == a && bs[8..16] == b && bs[16..24] == c && bs[24..32] == d
  {
  }

  lemma ThreePieces(a: seq<byte>, b: seq<byte>, c: seq<byte>)
    requires |a| == 4 && |b| == 2 && |c| == 4
    ensures var bs := a + b + c; bs[0..4] == a && bs[4..6] == b && bs[6..10] == c
  {
  }

  // The 60 bytes in front of every payload.
  lemma HeaderLayout(p: Packet)
    ensures var bs, h := PacketBytes(p), p.header;
      && |bs| == 60 + |p.payload| && bs[60..] == p.payload
      && bs[0] == h.magic && bs[59] == h.magicData
      && At(bs, 1, 5) == h.crc && At(bs, 5, 9) == h.typ && bs[9..41] == IdBytes(h.id)
      && At(bs, 41, 45) == h.sync0 && At(bs, 45, 49) == h.sync1
      && At(bs, 49, 57) == h.counter && At(bs, 57, 59) == h.size
  {
    var h := p.header;
    FieldsInPlace(h, p.payload);
    PowerOfEight();
    hide ToLE, LE, Pow256, IdBytes, HeaderBytes;
    DecodeEncode(h.crc, 4); DecodeEncode(h.typ, 4); DecodeEncode(h.sync0, 4); DecodeEncode(h.sync1, 4);
    DecodeEncode(h.counter, 8); DecodeEncode(h.size, 2);
  }

  // 'S' and 'D', a payload of at most 511 bytes, a buffer of 32 kilobytes.
  lemma FramingNumbers(p: Packet)
    requires Sendable(p)
    ensures p.header.magic == 'S' as int && p.header.magicData == 'D' as int && |p.payload| <= 511
    ensures |PacketBytes(p)| == 60 + |p.payload| && BUFFER_SIZE == 0x8000
  {
  }

  // The tables of the server, and the room for one value, on both sides.
  lemma TableNumbers()
    ensures EVENTS == 256 && CLIENTS == 64 && CHANNELS == 32
    ensures DATA_SIZE == 511 == ReadHandshake.CAPACITY == MAX_PAYLOAD
  {
  }

  // ----------------------------------------------------------------- requests

  lemma Typed(typ: U32)
    ensures Nibble(typ, 0) == typ % 16 && Nibble(typ, 12) == typ / 0x1000 % 16
  {
    Calls.Powers();
    hide Power2;
  }

  // The number in the low digit of the type word says what is asked for.
  lemma RequestNumbers(p: Packet, behind: Tail)
    ensures var h, req, n := p.header, RequestOf(p, behind), p.header.typ % 16;
      && (n == 0x1 ==> req == Hello(h.id, h.sync0, h.sync1))
      && (n == 0x3 ==> req == Write(h.id, Calls.CallerFlags(h.typ), p.payload))
      && (n == 0x4 ==> req == Read(h.id))
      && (n == 0x5 ==> req == Request.Subscribe(h.id, Calls.CallerFlags(h.typ), h.counter))
      && (n == 0x6 ==> req == Request.Unsubscribe(h.id))
      && (n == 0x7 ==> req == Define(h.id, Calls.CallerFlags(h.typ), |p.payload|))
      && (n == 0x8 ==> req == Undefine(h.id))
      && (n == 0x9 ==> req == EventList(IdBytes(h.id)[0]))
      && (n == 0xa ==> req == ClientList(IdBytes(h.id)[0]))
      && (n == 0xe ==> req == ChannelList(IdBytes(h.id)[0]))
      && (n in {0x0, 0x2, 0xb, 0xc, 0xf} ==> req == Unknown)
  {
    Typed(p.header.typ);
    Calls.FlagsRead(p.header.typ);
    FirstByte(p.header.id);
    hide Nibble, FlagsOf, Calls.CallerFlags, IdBytes, Field;
  }

  lemma FirstByte(id: Id)
    ensures IdBytes(id)[0] == id.w0 % 256
  {
  }

  // Number 0xd is for channels: an announcement or a request, by the fourth
  // digit, and the ticket of an announcement lies behind the header.
  lemma ChannelNumbers(p: Packet, behind: Tail)
    requires p.header.typ % 16 == 0xd
    ensures var req, bs := RequestOf(p, behind), p.payload + behind;
      && (p.header.typ / 0x1000 % 16 == 1 ==>
            req.Announce? && req.id == p.header.id && req.port == At(bs, 4, 6) && req.ticketFlags == At(bs, 6, 10))
      && (p.header.typ / 0x1000 % 16 == 2 ==> req == TicketRequest(p.header.id))
      && (p.header.typ / 0x1000 % 16 !in {1, 2} ==> req == Unknown)
  {
    Typed(p.header.typ);
    PowerOfEight();
    hide Nibble, LE, Pow256;
  }

  // The words that the client's calls put there: the number, and of the
  // caller's word the two digits of flags and type.
  lemma CallNumbers(h: Header, call: Calls.ClientCall)
    requires Calls.Backed(call)
    ensures var built := Calls.Built(h, call).header;
      && built.magic == 'S' as int && built.magicData == 'D' as int
      && match call
         case CallHello(id) => built.typ == 0x1 && built.id == id && built.sync0 == 2 && built.sync1 == 1
         case CallSubscribe(id, word, counter) =>
           built.typ == 0x5 + word / 0x10 % 0x100 * 0x10 && built.id == id && built.counter == counter
         case CallUnsubscribe(id, word) => built.typ == 0x6 + word / 0x10 % 0x100 * 0x10 && built.id == id
         case CallDefine(id, word) => built.typ == 0x7 + word / 0x10 % 0x100 * 0x10 && built.id == id
         case CallUndefine(id) => built.typ == 0x7 && built.id == id
         case CallWrite(id, word, _, _) => built.typ == 0x3 + word / 0x10 % 0x100 * 0x10 && built.id == id
         case CallRead(id, word) => built.typ == 0x4 + word / 0x100 % 0x10 * 0x100 && built.id == id
         case CallAnnounce(id, _, _, _) => built.typ == 0x100d && built.id == id
         case CallList(kind, sequence) =>
           && built.typ == (if kind.Events? then 0x9 else if kind.Clients? then 0xa else 0xe)
           && IdBytes(built.id)[0] == sequence
  {
    if call.CallList? {
      FirstByte(Calls.Built(h, call).header.id);
    }
    hide IdBytes;
  }

  // The ticket of an announcement.
  lemma AnnouncementLayout(h: Header, id: Id, ip: U32, port: U16, flags: U32)
    ensures var bs := Calls.Built(h, Calls.CallAnnounce(id, ip, port, flags)).payload;
      |bs| == 10 && At(bs, 0, 4) == ip && At(bs, 4, 6) == port && At(bs, 6, 10) == flags
  {
    TicketLayout(ip, port, flags);
  }

  // The sizes that go with types: INT32 and FLOAT, INT64 and DOUBLE, others.
  lemma TypeSizes(v: VarType)
    ensures SizeByType(v) == if v == 2 || v == 4 then 4 else if v == 3 || v == 5 then 8 else 0
  {
  }

  // The size of a definition: what it says, from 2 to 510, or that of its
  // type. And of a write by the server's program: what it says, but that of
  // its type for 0.
  lemma DefinitionSizes(flags: Flags, size: nat)
    ensures DefinedSize(flags, size)
         == if 2 <= size <= 510 then size
            else if flags.vartype in {2, 4} then 4 else if flags.vartype in {3, 5} then 8 else 0
    ensures ServerSize(flags, size)
         == if size > 0 then size
            else if flags.vartype in {2, 4} then 4 else if flags.vartype in {3, 5} then 8 else 0
  {
  }

  // ----------------------------------------------------------------- messages

  // The words of the server's packets: an event with its type and the bit that
  // says it is synchronised, a resent one with the top bit of its status, and
  // so on.
  lemma MessageNumbers(h: Header, server: Id, msg: Message, before: nat -> Messages.Scratch)
    requires Messages.WellMade(msg)
    ensures var built := Messages.Built(h, server, msg, before).header;
      && built.magic == 'S' as int && built.magicData == 'D' as int
      && match msg
         case Notify(id, vartype, sync, _) =>
           && built.typ == 0x2 + 0x100 * vartype + (if sync.Some? then 0x10 else 0) && built.id == id
           && (sync.Some? ==> built.sync0 == sync.value.data0 && built.sync1 == sync.value.data1)
         case Resend(id, _) => built.typ == 0x1000_0002 && built.id == id
         case ReadReply(id, vartype, _) => built.typ == 0x4 + 0x100 * vartype && built.id == id
         case Status(code) => built.typ == 0xb && built.id == server && built.counter == code
         case EventPage(p) => built.typ == 0x9 && built.id == Messages.PageId(h, p)
         case ClientPage(p) => built.typ == 0xa && built.id == Messages.PageId(h, p)
         case ChannelPage(p) => built.typ == 0xe && built.id == Messages.PageId(h, p)
         case Ticket(id, _, _, _) => built.typ == 0x3000 && built.id == id
  {
    hide Messages.PageId, Messages.EventBytes, Messages.ClientBytes, Messages.ChannelBytes, Concat;
  }

  // Five bytes of a list packet's identifier.
  lemma PageLayout<T>(h: Header, p: Page<T>)
    ensures var bs := IdBytes(Messages.PageId(h, p));
      && bs[0] == p.index && bs[1] == p.announced && bs[2] == p.count && bs[3] == p.sequence
      && bs[4] == (if p.end then 1 else 0) && bs[5..] == IdBytes(h.id)[5..]
  {
    BytesFromTheirId([p.index, p.announced, p.count, p.sequence, if p.end then 1 else 0] + IdBytes(h.id)[5..]);
    hide IdBytes, IdOfBytes;
  }

  lemma TicketLayout(ip: U32, port: U16, flags: U32)
    ensures var bs := Messages.TicketBytes(ip, port, flags);
      |bs| == 10 && At(bs, 0, 4) == ip && At(bs, 4, 6) == port && At(bs, 6, 10) == flags
  {
    PowerOfEight();
    hide ToLE, LE, Pow256;
    ThreePieces(ToLE(ip, 4), ToLE(port, 2), ToLE(flags, 4));
    DecodeEncode(ip, 4); DecodeEncode(port, 2); DecodeEncode(flags, 4);
  }

  // The record of the event list.
  lemma EventRecordLayout(e: EventInfo, before: Messages.Scratch)
    requires Messages.EventInfoFits(e)
    ensures var bs := Messages.EventInfoBytes(e, before);
      && |bs| == 90 && bs[..32] == IdBytes(e.id) && At(bs, 32, 36) == 0x100 * e.vartype
      && |e.short| <= 32 && bs[36..36 + |e.short|] == e.short
      && At(bs, 68, 70) == e.size && At(bs, 78, 82) == e.count
      && At(bs, 82, 86) == e.consumersCount && At(bs, 86, 90) == e.producersCount
  {
    hide IdBytes, IdOfBytes, ToLE, LE, Pow256;
    Messages.EventPieces(IdBytes(e.id), ToLE(e.vartype * 256, 4), e.short, before[36 + |e.short|..68],
                         ToLE(e.size, 2), before[70..78], ToLE(e.count, 4), ToLE(e.consumersCount, 4),
                         ToLE(e.producersCount, 4));
    NumbersHeld(e);
  }

  lemma NumbersHeld(e: EventInfo)
    requires Messages.EventInfoFits(e)
    ensures LE(ToLE(e.vartype * 256, 4)) == e.vartype * 256 && LE(ToLE(e.size, 2)) == e.size
    ensures LE(ToLE(e.count, 4)) == e.count && LE(ToLE(e.consumersCount, 4)) == e.consumersCount
    ensures LE(ToLE(e.producersCount, 4)) == e.producersCount
  {
    PowerOfEight();
    hide ToLE, LE, Pow256;
    DecodeEncode(e.vartype * 256, 4); DecodeEncode(e.size, 2); DecodeEncode(e.count, 4);
    DecodeEncode(e.consumersCount, 4); DecodeEncode(e.producersCount, 4);
  }

  // The record of the client list.
  lemma ClientRecordLayout(x: ClientInfo, before: Messages.Scratch)
    ensures var bs := Messages.ClientInfoBytes(x, before);
      && |bs| == 52 && bs[..32] == IdBytes(x.id)
      && At(bs, 32, 36) == x.subscribed % 0x1_0000_0000 && At(bs, 48, 52) == x.ip
  {
    PowerOfEight();
    hide IdBytes, IdOfBytes, ToLE, LE, Pow256;
    Messages.ClientPieces(IdBytes(x.id), ToLE(x.subscribed % TWO32, 4), before[36..48], ToLE(x.ip, 4));
    DecodeEncode(x.subscribed % TWO32, 4); DecodeEncode(x.ip, 4);
  }

  // The record of the channel list.
  lemma ChannelRecordLayout(ch: ChannelInfo)
    ensures var bs := Messages.ChannelInfoBytes(ch);
      && |bs| == 46 && bs[..32] == IdBytes(ch.id)
      && At(bs, 32, 36) == ch.announced && At(bs, 36, 40) == ch.requested
      && At(bs, 40, 44) == ch.ip && At(bs, 44, 46) == ch.port
  {
    PowerOfEight();
    hide IdBytes, IdOfBytes, ToLE, LE, Pow256;
    Messages.ChannelPieces(IdBytes(ch.id), ToLE(ch.announced, 4), ToLE(ch.requested, 4), ToLE(ch.ip, 4),
                           ToLE(ch.port, 2));
    DecodeEncode(ch.announced, 4); DecodeEncode(ch.requested, 4); DecodeEncode(ch.ip, 4); DecodeEncode(ch.port, 2);
  }

  // What the client takes from an event packet: whether it is synchronised,
  // and the two words that its firing time is in.
  lemma StampWords(now: Time, offset: int)
    requires Reading(now) && 0 <= offset <= 999 && now.sec < 0xFFFF_FFFF
    ensures var stamp := Stamp(now, offset);
      && stamp.data0 * 1_000_000_000 + stamp.data1 == now.sec * 1_000_000_000 + now.nsec + offset * 1_000_000
      && 0 <= stamp.data1 <= 1_000_000_000
  {
    StampWithinASecond(now, offset);
  }

  // ---------------------------------------------------------- the client's switch

  lemma ClientBits(typ: U32)
    ensures Nibble(typ, 0) == typ % 16 && (Bit(typ, 4) <==> typ / 0x10 % 2 == 1)
  {
    Calls.Powers();
    hide Power2;
  }

  // The number in the low digit says what the client takes a packet for.
  lemma ReadingNumbers(p: Packet)
    ensures var h, n := p.header, p.header.typ % 16;
            var got := Messages.Reading(p);
      && (n == 0x2 ==> got == Messages.EventIn(h.id, if h.typ / 0x10 % 2 == 1 then Some(SyncData(h.sync0, h.sync1))
                                                     else None, p.payload))
      && (n == 0x4 ==> got == Messages.ReadIn(h.id, p.payload))
      && (n == 0xb ==> got == Messages.StatusIn(h.id, h.counter))
      && (n == 0x9 ==> got.EventsIn?) && (n == 0xa ==> got.ClientsIn?) && (n == 0xe ==> got.ChannelsIn?)
      && (n !in {0x2, 0x4, 0x9, 0xa, 0xb, 0xe} ==> got == Messages.Ignored)
  {
    ClientBits(p.header.typ);
    NoTicketType(p.header.typ);
    hide Nibble, Bit, Messages.PageOf, Messages.EventInfos, Messages.ClientInfos, Messages.ChannelInfos, Messages.Cut;
  }

  // A ticket is looked for among the types 0x000 to 0x700, but its number is
  // 0x3000: no packet at all is taken for one.
  lemma NoTicketType(typ: U32)
    ensures typ / 256 % 8 * 256 <= 0x700 < 0x3000
  {
  }

  lemma NoTicketIsTaken(p: Packet)
    ensures !Messages.Reading(p).TicketIn?
  {
    hide Messages.Reading;
    ReadingNumbers(p);
  }
}
