// The other direction: the packets that the server builds from its messages,
// and what the client's switch makes of them.
module ServerMessages {
  import opened Bytes
  import opened Framing
  import opened Headers
  import opened Link
  import opened ListPaging
  import opened SyncClock
  import opened Broker
  import opened BrokerRuns

  const MSG_STATUS := 0x0b
  const LOST := 0x1000_0000
  const TICKET := 0x3000
  const SHORT_DATA: nat := 32

  // What lay in the packet's buffer, where a record is filled in, before.
  type Scratch = bs: seq<byte> | |bs| == EVENT_INFO_SIZE witness seq(EVENT_INFO_SIZE, _ => 0)

  // ------------------------------------------------------------- the records

  predicate EventInfoFits(e: EventInfo) {
    e.size <= DATA_SIZE && |e.short| == if e.size < SHORT_DATA then e.size else SHORT_DATA
  }

  // One record of the event list: the time and the end of the short data stay
  // as they were.
  function EventInfoBytes(e: EventInfo, before: Scratch): (bs: seq<byte>)
    requires EventInfoFits(e)
    ensures |bs| == EVENT_INFO_SIZE
  {
    IdBytes(e.id) + ToLE(e.vartype * 256, 4) + e.short + before[36 + |e.short|..68] + ToLE(e.size, 2) + before[70..78]
    + ToLE(e.count, 4) + ToLE(e.consumersCount, 4) + ToLE(e.producersCount, 4)
  }

  function EventInfoOf(bs: seq<byte>): EventInfo
    requires |bs| == EVENT_INFO_SIZE
  {
    PowerOfEight();
    var size := Field(bs, 68, 2);
    EventInfo(IdOfBytes(bs[..32]), Field(bs, 32, 4) / 256 % 16,
        bs[36..36 + if size < SHORT_DATA then size else SHORT_DATA],
              size, Field(bs, 78, 4), Field(bs, 82, 4), Field(bs, 86, 4))
  }

  // One record of the client list; of its counters only that of subscriptions
  // is followed here.
  function ClientInfoBytes(x: ClientInfo, before: Scratch): (bs: seq<byte>)
    ensures |bs| == CLIENT_INFO_SIZE
  {
    IdBytes(x.id) + ToLE(x.subscribed % TWO32, 4) + before[36..48] + ToLE(x.ip, 4)
  }

  function ClientInfoOf(bs: seq<byte>): ClientInfo
    requires |bs| == CLIENT_INFO_SIZE
  {
    PowerOfEight();
    ClientInfo(IdOfBytes(bs[..32]), Field(bs, 32, 4), Field(bs, 48, 4))
  }

  function ChannelInfoBytes(ch: ChannelInfo): (bs: seq<byte>)
    ensures |bs| == CHANNEL_INFO_SIZE
  {
    IdBytes(ch.id) + ToLE(ch.announced, 4) + ToLE(ch.requested, 4) + ToLE(ch.ip, 4) + ToLE(ch.port, 2)
  }

  function ChannelInfoOf(bs: seq<byte>): ChannelInfo
    requires |bs| == CHANNEL_INFO_SIZE
  {
    PowerOfEight();
    ChannelInfo(IdOfBytes(bs[..32]), Field(bs, 32, 4), Field(bs, 36, 4), Field(bs, 40, 4), Field(bs, 44, 2))
  }

  // Where the fields of a record lie.
  lemma EventPieces(id: seq<byte>, typ: seq<byte>, short: seq<byte>, pad: seq<byte>, size: seq<byte>,
                    time: seq<byte>, count: seq<byte>, consumers: seq<byte>, producers: seq<byte>)
    requires |id| == 32 && |typ| == 4 && |short| + |pad| == SHORT_DATA && |size| == 2 && |time| == 8
    requires |count| == |consumers| == |producers| == 4
    ensures var bs := id + typ + short + pad + size + time + count + consumers + producers;
      && bs[..32] == id && bs[32..36] == typ && bs[36..36 + |short|] == short && bs[68..70] == size
      && bs[78..82] == count && bs[82..86] == consumers && bs[86..90] == producers
  {
  }

  lemma ClientPieces(id: seq<byte>, subscribed: seq<byte>, counts: seq<byte>, ip: seq<byte>)
    requires |id| == 32 && |subscribed| == |ip| == 4 && |counts| == 12
    ensures var bs := id + subscribed + counts + ip;
      bs[..32] == id && bs[32..36] == subscribed && bs[48..52] == ip
  {
  }

  lemma ChannelPieces(id: seq<byte>, announced: seq<byte>, requested: seq<byte>, ip: seq<byte>, port: seq<byte>)
    requires |id| == 32 && |announced| == |requested| == |ip| == 4 && |port| == 2
    ensures var bs := id + announced + requested + ip + port;
      bs[..32] == id && bs[32..36] == announced && bs[36..40] == requested && bs[40..44] == ip && bs[44..46] == port
  {
  }

  lemma EventInfoRoundTrip(e: EventInfo, before: Scratch)
    requires EventInfoFits(e)
    ensures EventInfoOf(EventInfoBytes(e, before)) == e
  {
    hide IdBytes, IdOfBytes, ToLE, LE, Pow256, EventInfoOf;
    EventPieces(IdBytes(e.id), ToLE(e.vartype * 256, 4), e.short, before[36 + |e.short|..68], ToLE(e.size, 2),
                before[70..78], ToLE(e.count, 4), ToLE(e.consumersCount, 4), ToLE(e.producersCount, 4));
    EventFields(EventInfoBytes(e, before), e);
  }

  lemma EventFields(bs: seq<byte>, e: EventInfo)
    requires EventInfoFits(e) && |bs| == EVENT_INFO_SIZE
    requires bs[..32] == IdBytes(e.id) && bs[32..36] == ToLE(e.vartype * 256, 4)
    requires bs[36..36 + |e.short|] == e.short && bs[68..70] == ToLE(e.size, 2)
    requires bs[78..82] == ToLE(e.count, 4) && bs[82..86] == ToLE(e.consumersCount, 4)
          && bs[86..90] == ToLE(e.producersCount, 4)
    ensures EventInfoOf(bs) == e
  {
    PowerOfEight();
    IdFromItsBytes(e.id);
    hide IdBytes, IdOfBytes, ToLE, LE, Pow256;
    DecodeEncode(e.vartype * 256, 4); DecodeEncode(e.size, 2); DecodeEncode(e.count, 4);
    DecodeEncode(e.consumersCount, 4); DecodeEncode(e.producersCount, 4);
  }

  lemma ClientInfoRoundTrip(x: ClientInfo, before: Scratch)
    ensures ClientInfoOf(ClientInfoBytes(x, before)) == x.(subscribed := x.subscribed % TWO32)
  {
    var bs := ClientInfoBytes(x, before);
    PowerOfEight();
    IdFromItsBytes(x.id);
    hide IdBytes, IdOfBytes, ToLE, LE, Pow256;
    ClientPieces(IdBytes(x.id), ToLE(x.subscribed % TWO32, 4), before[36..48], ToLE(x.ip, 4));
    DecodeEncode(x.subscribed % TWO32, 4); DecodeEncode(x.ip, 4);
  }

  lemma ChannelInfoRoundTrip(ch: ChannelInfo)
    ensures ChannelInfoOf(ChannelInfoBytes(ch)) == ch
  {
    var bs := ChannelInfoBytes(ch);
    PowerOfEight();
    IdFromItsBytes(ch.id);
    hide IdBytes, IdOfBytes, ToLE, LE, Pow256;
    ChannelPieces(IdBytes(ch.id), ToLE(ch.announced, 4), ToLE(ch.requested, 4), ToLE(ch.ip, 4), ToLE(ch.port, 2));
    DecodeEncode(ch.announced, 4); DecodeEncode(ch.requested, 4); DecodeEncode(ch.ip, 4); DecodeEncode(ch.port, 2);
  }

  // A payload cut into records of one width.
  function Cut(bs: seq<byte>, width: nat): (rs: seq<seq<byte>>)
    requires width > 0
    ensures forall i | 0 <= i < |rs| :: |rs[i]| == width
    decreases |bs|
  {
    if |bs| < width then [] else [bs[..width]] + Cut(bs[width..], width)
  }

  lemma {:induction false} CutConcat(rs: seq<seq<byte>>, width: nat)
    requires width > 0 && forall i | 0 <= i < |rs| :: |rs[i]| == width
    ensures Cut(Concat(rs), width) == rs && |Concat(rs)| == |rs| * width
    decreases |rs|
  {
    if rs == [] {
      assert Concat(rs) == [];
    } else {
      var bs := Concat(rs);
      CutConcat(rs[1..], width);
      assert bs[..width] == rs[0] && bs[width..] == Concat(rs[1..]);
      assert |rs| * width == width + (|rs| - 1) * width;
    }
  }

  // ------------------------------------------------------------- the packets

  // What the broker's messages are like: payloads within an event's buffer,
  // lists within a page.
  predicate WellMade(msg: Message) {
    match msg
    case Notify(_, _, sync, data) =>
      |data| <= DATA_SIZE && (sync.Some? ==> 0 <= sync.value.data0 < TWO32 && 0 <= sync.value.data1 < TWO32)
    case Resend(_, data) => |data| <= DATA_SIZE
    case ReadReply(_, _, data) => |data| <= DATA_SIZE
    case Status(code) => code < 0x1_0000_0000_0000_0000
    case EventPage(p) => |p.items| <= EVENTS_PER_PAGE && forall e | e in p.items :: EventInfoFits(e)
    case ClientPage(p) => |p.items| <= CLIENTS_PER_PAGE
    case ChannelPage(p) => |p.items| <= CHANNELS_PER_PAGE
    case Ticket(_, _, _, _) => true
  }

  // Five bytes of the identifier of a list packet are written; the others
  // stay as they were.
  function PageId<T>(h: Header, p: Page<T>): Id {
    IdOfBytes([p.index, p.announced, p.count, p.sequence, if p.end then 1 else 0] + IdBytes(h.id)[5..])
  }

  function EventBytes(items: seq<EventInfo>, before: nat -> Scratch): (rs: seq<seq<byte>>)
    requires forall e | e in items :: EventInfoFits(e)
    ensures |rs| == |items| && forall i | 0 <= i < |rs| :: |rs[i]| == EVENT_INFO_SIZE
  {
    var rs := seq(|items|, i requires 0 <= i < |items| => EventInfoBytes(items[i], before(i)));
    assert forall i | 0 <= i < |items| :: rs[i] == EventInfoBytes(items[i], before(i));
    rs
  }

  function ClientBytes(items: seq<ClientInfo>, before: nat -> Scratch): (rs: seq<seq<byte>>)
    ensures |rs| == |items| && forall i | 0 <= i < |rs| :: |rs[i]| == CLIENT_INFO_SIZE
  {
    var rs := seq(|items|, i requires 0 <= i < |items| => ClientInfoBytes(items[i], before(i)));
    assert forall i | 0 <= i < |items| :: rs[i] == ClientInfoBytes(items[i], before(i));
    rs
  }

  function ChannelBytes(items: seq<ChannelInfo>): (rs: seq<seq<byte>>)
    ensures |rs| == |items| && forall i | 0 <= i < |rs| :: |rs[i]| == CHANNEL_INFO_SIZE
  {
    seq(|items|, i requires 0 <= i < |items| => ChannelInfoBytes(items[i]))
  }

  // A header with its size field set, and the payload behind it.
  function Loaded(h: Header, payload: seq<byte>): Packet
    requires |payload| <= DATA_SIZE
  {
    Packet.Packet(h.(size := |payload|), payload)
  }

  function ListPacket<T>(h: Header, typ: U32, p: Page<T>, records: seq<seq<byte>>, width: nat): Packet
    requires width > 0 && |records| <= MAX_PAYLOAD / width && forall i | 0 <= i < |records| :: |records[i]| == width
  {
    CutConcat(records, width);
    RecordsFit(|records|, width);
    Loaded(FillHeader(h, PageId(h, p), typ), Concat(records))
  }

  lemma RecordsFit(n: nat, width: nat)
    requires width > 0 && n <= MAX_PAYLOAD / width
    ensures n * width <= MAX_PAYLOAD
  {
    MulMonotone(width, n, MAX_PAYLOAD / width);
  }

  function TicketBytes(ip: U32, port: U16, flags: U32): (bs: seq<byte>)
    ensures |bs| == 10
  {
    ToLE(ip, 4) + ToLE(port, 2) + ToLE(flags, 4)
  }

  // The packet of a message; `h` and `before` are what the stack held.
  function Built(h: Header, server: Id, msg: Message, before: nat -> Scratch): Packet
    requires WellMade(msg)
  {
    match msg
    case Notify(id, vartype, sync, data) =>
      var filled := FillHeader(h, id, MSG_EVENT + vartype * 256 + if sync.Some? then 16 else 0);
      Loaded(if sync.Some? then filled.(sync0 := sync.value.data0, sync1 := sync.value.data1) else filled, data)
    case Resend(id, data) => Loaded(FillHeader(h, id, MSG_EVENT + LOST), data)
    case ReadReply(id, vartype, data) => Loaded(FillHeader(h, id, MSG_READ + vartype * 256), data)
    case Status(code) => Loaded(FillRequest(h, server, MSG_STATUS).(counter := code), [])
    case EventPage(p) => ListPacket(h, MSG_EVENT_LIST, p, EventBytes(p.items, before), EVENT_INFO_SIZE)
    case ClientPage(p) => ListPacket(h, MSG_CLIENT_LIST, p, ClientBytes(p.items, before), CLIENT_INFO_SIZE)
    case ChannelPage(p) => ListPacket(h, MSG_CHANNEL_LIST, p, ChannelBytes(p.items), CHANNEL_INFO_SIZE)
    case Ticket(id, ip, port, flags) => Loaded(FillHeader(h, id, TICKET), TicketBytes(ip, port, flags))
  }

  // ------------------------------------------------------- the client's switch

  datatype Inbound =
    | EventIn(id: Id, sync: Option<SyncData>, data: seq<byte>)
    | ReadIn(id: Id, data: seq<byte>)
    | StatusIn(server: Id, code: Word)
    | EventsIn(events: Page<EventInfo>)
    | ClientsIn(clients: Page<ClientInfo>)
    | ChannelsIn(channels: Page<ChannelInfo>)
    | TicketIn(id: Id, ticket: seq<byte>)
    | Ignored

  function PageOf<T>(id: Id, items: seq<T>): Page<T> {
    var bs := IdBytes(id);
    Page(bs[0], bs[1], bs[2], bs[3], bs[4] == 1, items)
  }

  function EventInfos(rs: seq<seq<byte>>): seq<EventInfo>
    requires forall i | 0 <= i < |rs| :: |rs[i]| == EVENT_INFO_SIZE
  {
    seq(|rs|, i requires 0 <= i < |rs| => EventInfoOf(rs[i]))
  }

  function ClientInfos(rs: seq<seq<byte>>): seq<ClientInfo>
    requires forall i | 0 <= i < |rs| :: |rs[i]| == CLIENT_INFO_SIZE
  {
    seq(|rs|, i requires 0 <= i < |rs| => ClientInfoOf(rs[i]))
  }

  function ChannelInfos(rs: seq<seq<byte>>): seq<ChannelInfo>
    requires forall i | 0 <= i < |rs| :: |rs[i]| == CHANNEL_INFO_SIZE
  {
    seq(|rs|, i requires 0 <= i < |rs| => ChannelInfoOf(rs[i]))
  }

  function Reading(p: Packet): Inbound {
    var h := p.header;
    var msg := Nibble(h.typ, 0);
    if msg == MSG_EVENT then EventIn(h.id, if Bit(h.typ, 4) then Some(SyncData(h.sync0, h.sync1)) else None, p.payload)
    else if msg == MSG_CHANNEL then if h.typ / 256 % 8 * 256 == TICKET then TicketIn(h.id, p.payload) else Ignored
    else if msg == MSG_STATUS then StatusIn(h.id, h.counter)
    else if msg == MSG_READ then ReadIn(h.id, p.payload)
    else if msg == MSG_EVENT_LIST then EventsIn(PageOf(h.id, EventInfos(Cut(p.payload, EVENT_INFO_SIZE))))
    else if msg == MSG_CLIENT_LIST then ClientsIn(PageOf(h.id, ClientInfos(Cut(p.payload, CLIENT_INFO_SIZE))))
    else if msg == MSG_CHANNEL_LIST then ChannelsIn(PageOf(h.id, ChannelInfos(Cut(p.payload, CHANNEL_INFO_SIZE))))
    else Ignored
  }

  // What the server means the client to get.
  function Meant(server: Id, msg: Message): Inbound
    requires WellMade(msg)
  {
    match msg
    case Notify(id, _, sync, data) => EventIn(id, sync, data)
    case Resend(id, data) => EventIn(id, None, data)
    case ReadReply(id, _, data) => ReadIn(id, data)
    case Status(code) => StatusIn(server, code)
    case EventPage(p) => EventsIn(p)
    case ClientPage(p) => ClientsIn(p.(items := Counted32(p.items)))
    case ChannelPage(p) => ChannelsIn(p)
    case Ticket(id, ip, port, flags) => TicketIn(id, TicketBytes(ip, port, flags))
  }

  function Counted32(items: seq<ClientInfo>): seq<ClientInfo> {
    seq(|items|, i requires 0 <= i < |items| => items[i].(subscribed := items[i].subscribed % TWO32))
  }

  lemma PageIdRoundTrip<T>(h: Header, p: Page<T>)
    ensures PageOf(PageId(h, p), p.items) == p
  {
    BytesFromTheirId([p.index, p.announced, p.count, p.sequence, if p.end then 1 else 0] + IdBytes(h.id)[5..]);
    hide IdBytes, IdOfBytes;
  }

  lemma EventPageRead(p: Page<EventInfo>, before: nat -> Scratch)
    requires forall e | e in p.items :: EventInfoFits(e)
    ensures EventInfos(Cut(Concat(EventBytes(p.items, before)), EVENT_INFO_SIZE)) == p.items
  {
    var rs := EventBytes(p.items, before);
    CutConcat(rs, EVENT_INFO_SIZE);
    hide EventInfoBytes, EventInfoOf, Cut, Concat;
    forall i | 0 <= i < |rs| ensures EventInfoOf(rs[i]) == p.items[i] {
      assert p.items[i] in p.items;
      EventInfoRoundTrip(p.items[i], before(i));
    }
    hide EventInfoFits;
  }

  lemma ClientPageRead(items: seq<ClientInfo>, before: nat -> Scratch)
    ensures ClientInfos(Cut(Concat(ClientBytes(items, before)), CLIENT_INFO_SIZE)) == Counted32(items)
  {
    var rs := ClientBytes(items, before);
    CutConcat(rs, CLIENT_INFO_SIZE);
    hide ClientInfoBytes, ClientInfoOf, Cut, Concat;
    forall i | 0 <= i < |rs| ensures ClientInfoOf(rs[i]) == Counted32(items)[i] {
      ClientInfoRoundTrip(items[i], before(i));
    }
  }

  lemma ChannelPageRead(items: seq<ChannelInfo>)
    ensures ChannelInfos(Cut(Concat(ChannelBytes(items)), CHANNEL_INFO_SIZE)) == items
  {
    var rs := ChannelBytes(items);
    CutConcat(rs, CHANNEL_INFO_SIZE);
    hide ChannelInfoBytes, ChannelInfoOf, Cut, Concat;
    forall i | 0 <= i < |rs| ensures ChannelInfoOf(rs[i]) == items[i] {
      ChannelInfoRoundTrip(items[i]);
    }
  }

  lemma TypesRead(vartype: VarType, sync: bool)
    ensures var typ := MSG_EVENT + vartype * 256 + if sync then 16 else 0;
      Nibble(typ, 0) == MSG_EVENT && (Bit(typ, 4) <==> sync)
    ensures Nibble(MSG_EVENT + LOST, 0) == MSG_EVENT && !Bit(MSG_EVENT + LOST, 4)
    ensures Nibble(MSG_READ + vartype * 256, 0) == MSG_READ && Nibble(TICKET, 0) == 0
    ensures forall msg: nat | msg < 16 :: Nibble(msg, 0) == msg
  {
    assert Power2(0) == 1 && Power2(1) == 2 && Power2(2) == 4 && Power2(3) == 8 && Power2(4) == 16;
    hide Power2;
    var typ := MSG_EVENT + vartype * 256 + if sync then 16 else 0;
    assert typ / 16 == vartype * 16 + if sync then 1 else 0;
  }

  lemma ListPacketFields<T>(h: Header, typ: U32, p: Page<T>, records: seq<seq<byte>>, width: nat)
    requires width > 0 && |records| <= MAX_PAYLOAD / width && forall i | 0 <= i < |records| :: |records[i]| == width
    ensures var packet := ListPacket(h, typ, p, records, width);
      && Sendable(packet) && packet.header.typ == typ && packet.header.id == PageId(h, p)
      && packet.payload == Concat(records)
  {
    CutConcat(records, width);
    RecordsFit(|records|, width);
    hide Concat, PageId, Cut;
  }

  // Every message of the server passes the framer as it is.
  lemma BuiltIsSendable(h: Header, server: Id, msg: Message, before: nat -> Scratch)
    requires WellMade(msg)
    ensures Sendable(Built(h, server, msg, before))
  {
    hide EventBytes, ClientBytes, ChannelBytes, PageId, ListPacket, EventInfoFits;
    match msg
    case EventPage(p) => ListPacketFields(h, MSG_EVENT_LIST, p, EventBytes(p.items, before), EVENT_INFO_SIZE);
    case ClientPage(p) => ListPacketFields(h, MSG_CLIENT_LIST, p, ClientBytes(p.items, before), CLIENT_INFO_SIZE);
    case ChannelPage(p) => ListPacketFields(h, MSG_CHANNEL_LIST, p, ChannelBytes(p.items), CHANNEL_INFO_SIZE);
    case _ =>
  }

  lemma EventsRead(p: Packet)
    requires p.header.typ == MSG_EVENT_LIST
    ensures Reading(p) == EventsIn(PageOf(p.header.id, EventInfos(Cut(p.payload, EVENT_INFO_SIZE))))
  {
    TypesRead(0, false);
    hide Nibble, Bit, PageOf, EventInfos, ClientInfos, ChannelInfos, Cut;
  }

  lemma ClientsRead(p: Packet)
    requires p.header.typ == MSG_CLIENT_LIST
    ensures Reading(p) == ClientsIn(PageOf(p.header.id, ClientInfos(Cut(p.payload, CLIENT_INFO_SIZE))))
  {
    TypesRead(0, false);
    hide Nibble, Bit, PageOf, EventInfos, ClientInfos, ChannelInfos, Cut;
  }

  lemma ChannelsRead(p: Packet)
    requires p.header.typ == MSG_CHANNEL_LIST
    ensures Reading(p) == ChannelsIn(PageOf(p.header.id, ChannelInfos(Cut(p.payload, CHANNEL_INFO_SIZE))))
  {
    TypesRead(0, false);
    hide Nibble, Bit, PageOf, EventInfos, ClientInfos, ChannelInfos, Cut;
  }

  lemma EventPageUnderstood(h: Header, server: Id, p: Page<EventInfo>, before: nat -> Scratch)
    requires WellMade(EventPage(p))
    ensures Reading(Built(h, server, EventPage(p), before)) == EventsIn(p)
  {
    hide EventBytes, PageId, PageOf, EventInfos, Cut, Concat, ListPacket, Reading;
    ListPacketFields(h, MSG_EVENT_LIST, p, EventBytes(p.items, before), EVENT_INFO_SIZE);
    PageIdRoundTrip(h, p);
    EventPageRead(p, before);
    EventsRead(Built(h, server, EventPage(p), before));
  }

  lemma ClientPageUnderstood(h: Header, server: Id, p: Page<ClientInfo>, before: nat -> Scratch)
    requires WellMade(ClientPage(p))
    ensures Reading(Built(h, server, ClientPage(p), before)) == ClientsIn(p.(items := Counted32(p.items)))
  {
    hide ClientBytes, PageId, PageOf, ClientInfos, Cut, Concat, ListPacket, Reading;
    ListPacketFields(h, MSG_CLIENT_LIST, p, ClientBytes(p.items, before), CLIENT_INFO_SIZE);
    PageIdRoundTrip(h, p.(items := Counted32(p.items)));
    ClientPageRead(p.items, before);
    SamePageId(h, p, Counted32(p.items));
    ClientsRead(Built(h, server, ClientPage(p), before));
  }

  lemma ChannelPageUnderstood(h: Header, server: Id, p: Page<ChannelInfo>, before: nat -> Scratch)
    requires WellMade(ChannelPage(p))
    ensures Reading(Built(h, server, ChannelPage(p), before)) == ChannelsIn(p)
  {
    hide ChannelBytes, PageId, PageOf, ChannelInfos, Cut, Concat, ListPacket, Reading;
    ListPacketFields(h, MSG_CHANNEL_LIST, p, ChannelBytes(p.items), CHANNEL_INFO_SIZE);
    PageIdRoundTrip(h, p);
    ChannelPageRead(p.items);
    ChannelsRead(Built(h, server, ChannelPage(p), before));
  }

  // And the client reads it as what it is meant to be, if and only if it is
  // no ticket: the packet of a ticket has no message number at all, and is
  // ignored.
  lemma ClientUnderstands(h: Header, server: Id, msg: Message, before: nat -> Scratch)
    requires WellMade(msg)
    ensures Reading(Built(h, server, msg, before)) == Meant(server, msg) <==> !msg.Ticket?
    ensures msg.Ticket? ==> Reading(Built(h, server, msg, before)) == Ignored
  {
    hide Nibble, Bit, PageOf, Cut, EventInfos, ClientInfos, ChannelInfos, ListPacket, ToLE;
    TypesRead(0, false);
    match msg
    case Notify(id, vartype, sync, data) => TypesRead(vartype, sync.Some?);
    case ReadReply(id, vartype, data) => TypesRead(vartype, false);
    case EventPage(p) => EventPageUnderstood(h, server, p, before);
    case ClientPage(p) => ClientPageUnderstood(h, server, p, before);
    case ChannelPage(p) => ChannelPageUnderstood(h, server, p, before);
    case _ =>
  }

  lemma SamePageId<T>(h: Header, p: Page<T>, items: seq<T>)
    ensures PageId(h, p.(items := items)) == PageId(h, p)
  {
  }

  // ---------------------------------------------------------- end to end

  function BuiltAll(hs: seq<Header>, server: Id, msgs: seq<Message>, before: nat -> Scratch): (ps: seq<Packet>)
    requires |hs| == |msgs| && forall i | 0 <= i < |msgs| :: WellMade(msgs[i])
    ensures |ps| == |msgs| && forall i | 0 <= i < |ps| :: ps[i] == Built(hs[i], server, msgs[i], before)
  {
    seq(|msgs|, i requires 0 <= i < |msgs| => Built(hs[i], server, msgs[i], before))
  }

  // From the server's messages to the client's switch: whatever the stack
  // held, whatever 'S'-free garbage came before and however the stream was
  // cut into reads of at least a header.
  lemma MessagesArrive(hs: seq<Header>, server: Id, msgs: seq<Message>, before: nat -> Scratch, garbage: seq<byte>,
                       chunks: seq<seq<byte>>)
    requires |hs| == |msgs| && forall i | 0 <= i < |msgs| :: WellMade(msgs[i])
    requires MAGIC !in garbage
    requires Concat(chunks) == garbage + Wire(BuiltAll(hs, server, msgs, before))
    requires forall i | 0 <= i < |chunks| :: |chunks[i]| >= HEADER
    ensures var arrived := Session([], chunks).packets;
      && |arrived| == |msgs|
      && forall i | 0 <= i < |msgs| ::
          |arrived[i]| >= HEADER
          && Reading(PacketOf(arrived[i])) == if msgs[i].Ticket? then Ignored else Meant(server, msgs[i])
  {
    var packets := BuiltAll(hs, server, msgs, before);
    hide Built, Reading, Meant, Session, Wire, Concat, Sendable, PacketOf, PacketBytes, WellMade;
    forall i | 0 <= i < |packets|
      ensures Sendable(packets[i])
      ensures Reading(packets[i]) == if msgs[i].Ticket? then Ignored else Meant(server, msgs[i])
    {
      BuiltIsSendable(hs[i], server, msgs[i], before);
      ClientUnderstands(hs[i], server, msgs[i], before);
    }
    EndToEnd(packets, garbage, chunks);
  }

  // -------------------------------------------- what the broker really sends

  predicate AllWellMade(out: seq<Output>) {
    forall o | o in out && o.Sent? :: WellMade(o.msg)
  }

  lemma {:induction false} FanSends(s: State, consumers: seq<Option<ClientIx>>, skip: Option<ClientIx>, msg: Message)
    requires Shape(s)
    ensures forall o | o in Fan(s, consumers, skip, msg) :: o.Sent? && o.msg == msg
  {
    hide Shape;
    if consumers == [] {
    } else {
      FanSends(s, consumers[..|consumers| - 1], skip, msg);
    }
  }

  lemma {:induction false} EmitAllSends(s: State, c: ClientIx, msgs: seq<Message>)
    requires Shape(s)
    ensures forall o | o in EmitAll(s, c, msgs) :: o.Sent? && o.msg in msgs
    decreases |msgs|
  {
    hide Shape;
    if msgs == [] {
    } else {
      EmitAllSends(s, c, msgs[1..]);
    }
  }

  lemma {:induction false} PagesSmall<T>(items: seq<T>, capacity: nat, announced: byte, sequence: byte, index: nat)
    requires 0 < capacity < 256
    ensures forall p | p in Pages(items, capacity, announced, sequence, index) ::
              |p.items| <= capacity && forall x | x in p.items :: x in items
    decreases |items|
  {
    if |items| < capacity {
    } else {
      PagesSmall(items[capacity..], capacity, announced, sequence, index + 1);
    }
  }

  lemma {:induction false} UsedFrom<T>(slots: seq<Option<T>>)
    ensures forall x | x in Used(slots) :: Some(x) in slots
  {
    if slots == [] {
    } else {
      UsedFrom(slots[1..]);
    }
  }

  lemma EventListWellMade(s: State, c: ClientIx, sequence: byte)
    requires Shape(s)
    ensures AllWellMade(EventsListed(s, c, sequence).out)
  {
    var pages := Response(EventRecords(s), EVENTS_PER_PAGE, s.eventCount, sequence);
    UsedFrom(EventRecords(s));
    PagesSmall(Used(EventRecords(s)), EVENTS_PER_PAGE, (s.eventCount / EVENTS_PER_PAGE + 1) % 256, sequence, 0);
    EmitAllSends(s, c, EventPages(pages));
    hide EmitAll, Pages, Used;
    forall p, e | p in pages && e in p.items ensures EventInfoFits(e) {
      assert Some(e) in EventRecords(s);
    }
  }

  lemma OtherListsWellMade(s: State, c: ClientIx, sequence: byte)
    requires Shape(s)
    ensures AllWellMade(ClientsListed(s, c, sequence).out)
    ensures AllWellMade(ChannelsListed(s, c, sequence).out)
  {
    hide EmitAll, Used, ClientRecords, ChannelRecords, Shape;
    PagesSmall(Used(ClientRecords(s)), CLIENTS_PER_PAGE, (s.clientCount / CLIENTS_PER_PAGE + 1) % 256, sequence, 0);
    PagesSmall(Used(ChannelRecords(s)), CHANNELS_PER_PAGE, (s.channelCount / CHANNELS_PER_PAGE + 1) % 256, sequence, 0);
    hide Pages;
    EmitAllSends(s, c, ClientPages(Response(ClientRecords(s), CLIENTS_PER_PAGE, s.clientCount, sequence)));
    EmitAllSends(s, c, ChannelPages(Response(ChannelRecords(s), CHANNELS_PER_PAGE, s.channelCount, sequence)));
  }

  lemma SendEventWellMade(s: State, e: Event, flags: Flags, now: Time)
    requires Shape(s) && EventShape(e)
    ensures AllWellMade(SendEvent(s, e, flags, now))
  {
    FanSends(s, e.consumers, if flags.echo then None else e.producer, NotifyOf(s, e, flags.sync, now));
    hide Fan;
  }

  lemma RequestWellMade(s: State, c: ClientIx, req: Request, now: Time)
    requires Shape(s) && Bounded(req)
    ensures AllWellMade(Processed(s, c, req, now).out)
  {
    hide SendEvent, EmitAll, CloseClient, EventsListed, ClientsListed, ChannelsListed, Obtain, AddConsumer, Stored;
    match req
    case EventList(sequence) => EventListWellMade(s, c, sequence);
    case ClientList(sequence) => OtherListsWellMade(s, c, sequence);
    case ChannelList(sequence) => OtherListsWellMade(s, c, sequence);
    case Write(id, flags, data) => WriteWellMade(s, c, id, flags, data, now);
    case _ =>
  }

  lemma WriteWellMade(s: State, c: ClientIx, id: Id, flags: Flags, data: seq<byte>, now: Time)
    requires Shape(s) && |data| <= DATA_SIZE
    ensures AllWellMade(Written(s, c, id, flags, data, now).out)
  {
    hide SendEvent, Obtain, Stored, WellMade;
    var o := Obtain(s, id, flags.force, flags.vartype);
    if o.code == 0 && flags.vartype == o.s.events[o.slot].vartype {
      var e := Stored(o.s, o.s.events[o.slot], c, data);
      SendEventWellMade(PutEvent(o.s, o.slot, e).(counter := (s.counter + 1) % 0x1_0000_0000_0000_0000), e, flags, now);
    }
  }

  lemma ServerWriteWellMade(s: State, id: Id, flags: Flags, data: seq<byte>, size: nat, now: Time)
    requires Shape(s) && ServerSize(flags, size) <= |data| && size <= DATA_SIZE
    ensures AllWellMade(WrittenByServer(s, id, flags, data, size, now).out)
  {
    hide SendEvent, Obtain, WellMade;
    var o := Obtain(s, id, flags.force, VAR_UNDEFINED);
    if o.code == 0 {
      var t := WrittenByServer(s, id, flags, data, size, now).s;
      SendEventWellMade(t, t.events[o.slot], flags, now);
    }
  }

  // Whatever state the broker is in and whatever comes, each of its messages
  // has a packet, so that what is proved about packets holds of all it sends.
  lemma BrokerSendsWellMade(s: State, x: Input)
    requires Shape(s)
    ensures AllWellMade(Step(s, x).out)
  {
    hide Processed, ClientOfDatagram, WrittenByServer, Accepted, CloseClient, Obtain, WellMade;
    match x
    case Packet(c, req, now) => RequestWellMade(s, c, req, now);
    case Datagram(addr, req, now) =>
      var (t, c) := ClientOfDatagram(s, addr, req);
      if c < CLIENTS {
        RequestWellMade(t, c, req, now);
      }
    case Connection(fd, addr) => AcceptIsSilent(s, fd, addr);
    case ServerWrite(id, flags, data, size, now) => ServerWriteWellMade(s, id, flags, data, size, now);
    case _ =>
  }

  lemma AcceptIsSilent(s: State, fd: nat, addr: Addr)
    requires Shape(s)
    ensures Accepted(s, fd, addr).out == []
  {
  }
}
