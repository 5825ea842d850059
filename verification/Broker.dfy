// The broker: its tables, and what each request does to them.
module Broker {
  import opened Bytes
  import opened Headers
  import opened ListPaging
  import opened SyncClock

  const EVENTS: nat := 256
  const CLIENTS: nat := 64
  const CHANNELS: nat := 32
  const DATA_SIZE: nat := 511

  // The first word of the identifier of a free slot.
  const MARKER: Word := 0xFFFF_FFFF_FFFF_FFFF

  // Socket descriptors that are none.
  const CLOSED: int := -1
  const UDP: int := -2

  const MAJOR: nat := 2

  // A pointer into the client table.
  type ClientIx = c: nat | c < CLIENTS

  datatype Addr = Addr(ip: U32, port: U16)

  datatype Event = Event(
    id: Id, data: seq<byte>, vartype: VarType, size: nat, count: U32, stamp: Word,
    consumersCount: U32, producersCount: U32,
    consumers: seq<Option<ClientIx>>, producer: Option<ClientIx>, callback: Option<nat>)

  datatype Client = Client(id: Id, socket: int, addr: Addr, subscribed: int, version: nat)

  datatype Channel = Channel(
    id: Id, ip: U32, port: U16, flags: U32, announced: U32, requested: U32,
    producersCount: U32, producer: Option<ClientIx>)

  // The state of the server.
  datatype State = State(
    events: seq<Event>, clients: seq<Client>, channels: seq<Channel>,
    eventCount: U32, clientCount: U32, channelCount: U32, counter: Word, offset: int)

  datatype EventInfo = EventInfo(id: Id, vartype: VarType, short: seq<byte>, size: nat,
                                 count: U32, consumersCount: U32, producersCount: U32)
  datatype ClientInfo = ClientInfo(id: Id, subscribed: int, ip: U32)
  datatype ChannelInfo = ChannelInfo(id: Id, announced: U32, requested: U32, ip: U32, port: U16)

  datatype Message =
    | Notify(id: Id, vartype: VarType, sync: Option<SyncData>, data: seq<byte>)
    | Resend(id: Id, data: seq<byte>)
    | ReadReply(id: Id, vartype: VarType, data: seq<byte>)
    | Status(code: nat)
    | EventPage(events: Page<EventInfo>)
    | ClientPage(clients: Page<ClientInfo>)
    | ChannelPage(channels: Page<ChannelInfo>)
    | Ticket(id: Id, ip: U32, port: U16, flags: U32)

  // What leaves the broker: packets to clients, calls of user callbacks, and
  // refusals to unknown datagram senders.
  datatype Output =
    | Sent(to: ClientIx, msg: Message)
    | Called(callback: nat, id: Id, data: seq<byte>)
    | Refused(addr: Addr, code: nat)

  datatype Result = Result(s: State, out: seq<Output>, code: int)

  // The fixed sizes of the tables.
  predicate Shape(s: State) {
    && |s.events| == EVENTS && |s.clients| == CLIENTS && |s.channels| == CHANNELS
    && forall i | 0 <= i < EVENTS :: EventShape(s.events[i])
  }

  predicate EventShape(e: Event) {
    |e.data| == DATA_SIZE && e.size <= DATA_SIZE && |e.consumers| == CLIENTS
  }

  predicate Active(e: Event) {
    e.id.w0 != MARKER
  }

  predicate Open(ch: Channel) {
    ch.id.w0 != MARKER
  }

  predicate Live(s: State, c: ClientIx)
    requires Shape(s)
  {
    s.clients[c].socket != CLOSED
  }

  function Bump(n: U32): U32 {
    (n + 1) % 0x1_0000_0000
  }

  function Drop(n: U32): U32 {
    (n - 1) % 0x1_0000_0000
  }

  // memcpy to the front of a buffer.
  function Overwrite(buffer: seq<byte>, data: seq<byte>): (r: seq<byte>)
    ensures |data| <= |buffer| ==> |r| == |buffer|
    ensures |r| >= |data| && r[..|data|] == data
    ensures forall i | |data| <= i < |buffer| :: r[i] == buffer[i]
  {
    data + if |data| <= |buffer| then buffer[|data|..] else []
  }

  // ----------------------------------------------------------- the scans

  function FindEvent(es: seq<Event>, id: Id): (i: nat)
    ensures i <= |es|
    ensures forall j | 0 <= j < i :: es[j].id != id
    ensures i < |es| ==> es[i].id == id
  {
    if es == [] || es[0].id == id then 0 else 1 + FindEvent(es[1..], id)
  }

  function FreeEvent(es: seq<Event>): (i: nat)
    ensures i <= |es|
    ensures forall j | 0 <= j < i :: Active(es[j])
    ensures i < |es| ==> !Active(es[i])
  {
    if es == [] || !Active(es[0]) then 0 else 1 + FreeEvent(es[1..])
  }

  function FindChannel(chs: seq<Channel>, id: Id): (i: nat)
    ensures i <= |chs|
    ensures forall j | 0 <= j < i :: chs[j].id != id
    ensures i < |chs| ==> chs[i].id == id
  {
    if chs == [] || chs[0].id == id then 0 else 1 + FindChannel(chs[1..], id)
  }

  function FreeChannel(chs: seq<Channel>): (i: nat)
    ensures i <= |chs|
    ensures forall j | 0 <= j < i :: Open(chs[j])
    ensures i < |chs| ==> !Open(chs[i])
  {
    if chs == [] || !Open(chs[0]) then 0 else 1 + FreeChannel(chs[1..])
  }

  function FreeClient(cs: seq<Client>): (i: nat)
    ensures i <= |cs|
    ensures forall j | 0 <= j < i :: cs[j].socket != CLOSED
    ensures i < |cs| ==> cs[i].socket == CLOSED
  {
    if cs == [] || cs[0].socket == CLOSED then 0 else 1 + FreeClient(cs[1..])
  }

  function FindUdpAddr(cs: seq<Client>, addr: Addr): (i: nat)
    ensures i <= |cs|
    ensures forall j | 0 <= j < i :: !(cs[j].socket == UDP && cs[j].addr == addr)
    ensures i < |cs| ==> cs[i].socket == UDP && cs[i].addr == addr
  {
    if cs == [] || (cs[0].socket == UDP && cs[0].addr == addr) then 0 else 1 + FindUdpAddr(cs[1..], addr)
  }

  function FindUdpId(cs: seq<Client>, id: Id): (i: nat)
    ensures i <= |cs|
    ensures forall j | 0 <= j < i :: !(cs[j].socket == UDP && cs[j].id == id)
    ensures i < |cs| ==> cs[i].socket == UDP && cs[i].id == id
  {
    if cs == [] || (cs[0].socket == UDP && cs[0].id == id) then 0 else 1 + FindUdpId(cs[1..], id)
  }

  // The first consumer slot with this content.
  function IndexOf(consumers: seq<Option<ClientIx>>, x: Option<ClientIx>): (i: nat)
    ensures i <= |consumers|
    ensures forall j | 0 <= j < i :: consumers[j] != x
    ensures i < |consumers| ==> consumers[i] == x
  {
    if consumers == [] || consumers[0] == x then 0 else 1 + IndexOf(consumers[1..], x)
  }

  // ------------------------------------------------------------- the slots

  function PutEvent(s: State, i: nat, e: Event): (s': State)
    requires Shape(s) && i < EVENTS && EventShape(e)
    ensures Shape(s')
  {
    s.(events := s.events[i := e])
  }

  function PutClient(s: State, c: ClientIx, x: Client): (s': State)
    requires Shape(s)
    ensures Shape(s')
  {
    s.(clients := s.clients[c := x])
  }

  function PutChannel(s: State, i: nat, ch: Channel): (s': State)
    requires Shape(s) && i < CHANNELS
    ensures Shape(s')
  {
    s.(channels := s.channels[i := ch])
  }

  function NoConsumers(): (consumers: seq<Option<ClientIx>>)
    ensures |consumers| == CLIENTS && forall j | 0 <= j < CLIENTS :: consumers[j] == None
  {
    seq(CLIENTS, _ => None)
  }

  // A slot taken for a new event keeps its data buffer but for the first byte.
  function FreshEvent(slot: Event, id: Id): (e: Event)
    requires EventShape(slot)
    ensures EventShape(e)
  {
    Event(id, slot.data[0 := 0], VAR_UNDEFINED, 0, 0, 0, 0, 0, NoConsumers(), None, None)
  }

  // The slot of an event: found, or taken for it when creation is forced.
  // Codes: 0, -1 for not found, -2 for no space.
  datatype Obtained = Obtained(s: State, slot: nat, code: int)

  function Obtain(s: State, id: Id, force: bool, vartype: VarType): (o: Obtained)
    requires Shape(s)
    ensures Shape(o.s) && (o.code == 0 ==> o.slot < EVENTS)
  {
    var i := FindEvent(s.events, id);
    if i < EVENTS then Obtained(s, i, 0)
    else if !force then Obtained(s, EVENTS, -1)
    else
      var k := FreeEvent(s.events);
      if k == EVENTS then Obtained(s, EVENTS, -2)
      else
        var e := FreshEvent(s.events[k], id).(vartype := vartype);
        Obtained(PutEvent(s, k, e).(eventCount := Bump(s.eventCount)), k, 0)
  }

  function FreeSlot(s: State, id: Id): (s': State)
    requires Shape(s)
    ensures Shape(s')
  {
    var i := FindEvent(s.events, id);
    if i == EVENTS then s
    else
      var e := s.events[i];
      PutEvent(s, i, e.(id := e.id.(w0 := MARKER))).(eventCount := Drop(s.eventCount))
  }

  function AddConsumer(s: State, i: nat, c: ClientIx): (r: (State, int))
    requires Shape(s) && i < EVENTS
    ensures Shape(r.0)
  {
    var e := s.events[i];
    if IndexOf(e.consumers, Some(c)) < CLIENTS then (s, 0)
    else
      var j := IndexOf(e.consumers, None);
      if j == CLIENTS then (s, -1)
      else
        var x := s.clients[c];
        (PutClient(PutEvent(s, i, e.(consumers := e.consumers[j := Some(c)], consumersCount := Bump(e.consumersCount))),
                   c, x.(subscribed := x.subscribed + 1)), 0)
  }

  function RemoveConsumer(s: State, i: nat, c: ClientIx): (s': State)
    requires Shape(s) && i < EVENTS
    ensures Shape(s')
  {
    var e := s.events[i];
    var j := IndexOf(e.consumers, Some(c));
    if j == CLIENTS then s
    else
      var x := s.clients[c];
      PutClient(PutEvent(s, i, e.(consumers := e.consumers[j := None], consumersCount := Drop(e.consumersCount))),
                c, x.(subscribed := x.subscribed - 1))
  }

  // The first n slots of the walk that takes a client off all events.
  function RemoveFromEvents(s: State, c: ClientIx, n: nat): (s': State)
    requires Shape(s) && n <= EVENTS
    ensures Shape(s')
  {
    if n == 0 then s
    else
      var t := RemoveFromEvents(s, c, n - 1);
      if Active(t.events[n - 1]) then RemoveConsumer(t, n - 1, c) else t
  }

  function Dropped(ch: Channel, c: ClientIx): Channel {
    if Open(ch) && ch.producer == Some(c) then ch.(id := ch.id.(w0 := MARKER)) else ch
  }

  function DroppedAll(chs: seq<Channel>, c: ClientIx): (r: seq<Channel>)
    ensures |r| == |chs| && forall i | 0 <= i < |chs| :: r[i] == Dropped(chs[i], c)
  {
    seq(|chs|, i requires 0 <= i < |chs| => Dropped(chs[i], c))
  }

  function DropChannels(s: State, c: ClientIx): (s': State)
    requires Shape(s)
    ensures Shape(s')
  {
    s.(channels := DroppedAll(s.channels, c))
  }

  function CloseClient(s: State, c: ClientIx): (s': State)
    requires Shape(s)
    ensures Shape(s')
  {
    var t := DropChannels(RemoveFromEvents(s, c, EVENTS), c);
    PutClient(t, c, t.clients[c].(socket := CLOSED))
  }

  // ------------------------------------------------------------ the outputs

  // A send to a closed slot fails and goes nowhere.
  function Emit(s: State, c: ClientIx, msg: Message): seq<Output>
    requires Shape(s)
  {
    if s.clients[c].socket > CLOSED || s.clients[c].socket == UDP then [Sent(c, msg)] else []
  }

  // The walk over consumer slots: everybody but `skip` gets the message.
  function Fan(s: State, consumers: seq<Option<ClientIx>>, skip: Option<ClientIx>, msg: Message): seq<Output>
    requires Shape(s)
  {
    if consumers == [] then []
    else
      var last := consumers[|consumers| - 1];
      Fan(s, consumers[..|consumers| - 1], skip, msg)
      + if last.None? || last == skip then [] else Emit(s, last.value, msg)
  }

  function NotifyOf(s: State, e: Event, sync: bool, now: Time): Message
    requires EventShape(e)
  {
    Notify(e.id, e.vartype, if sync then Some(Stamp(now, s.offset)) else None, e.data[..e.size])
  }

  function SendEvent(s: State, e: Event, flags: Flags, now: Time): seq<Output>
    requires Shape(s) && EventShape(e)
  {
    Fan(s, e.consumers, if flags.echo then None else e.producer, NotifyOf(s, e, flags.sync, now))
  }

  // ----------------------------------------------------------- the requests

  predicate Compatible(have: VarType, want: VarType) {
    have == VAR_ANY || want == VAR_ANY || want == have
  }

  function Subscribed(s: State, c: ClientIx, id: Id, flags: Flags, presented: Word): (r: Result)
    requires Shape(s)
    ensures Shape(r.s)
  {
    var o := Obtain(s, id, flags.force, flags.vartype);
    if o.code != 0 then Result(o.s, [], o.code)
    else if !Compatible(o.s.events[o.slot].vartype, flags.vartype) then Result(o.s, [], -3)
    else
      var t := AddConsumer(o.s, o.slot, c).0;
      var e := t.events[o.slot];
      Result(t, if presented < e.stamp then Emit(t, c, Resend(e.id, e.data[..e.size])) else [], 0)
  }

  function Unsubscribed(s: State, c: ClientIx, id: Id): (r: Result)
    requires Shape(s)
    ensures Shape(r.s)
  {
    var i := FindEvent(s.events, id);
    Result(if i < EVENTS then RemoveConsumer(s, i, c) else s, [], 0)
  }

  // DEFINE from a client or from the server's own program, which may bring an
  // initial value.
  function Defined(s: State, id: Id, flags: Flags, data: Option<seq<byte>>, size: nat): (r: Result)
    requires Shape(s)
    requires data.Some? ==> |data.value| >= DefinedSize(flags, size)
    ensures Shape(r.s)
  {
    var i := FindEvent(s.events, id);
    if i < EVENTS && !flags.force then Result(s, [], -2)
    else
      var o := Obtain(s, id, true, VAR_UNDEFINED);
      if o.code != 0 then Result(s, [], -1)
      else
        var e := o.s.events[o.slot];
        var n := DefinedSize(flags, size);
        var buffer := if data.Some? then Overwrite(e.data, data.value[..n]) else e.data;
        Result(PutEvent(o.s, o.slot, e.(vartype := flags.vartype, size := n, data := buffer)), [], 0)
  }

  function DefinedSize(flags: Flags, size: nat): (n: nat)
    ensures n <= DATA_SIZE
  {
    if 1 < size < DATA_SIZE then size else SizeByType(flags.vartype)
  }

  function Undefined(s: State, id: Id): (r: Result)
    requires Shape(s)
    ensures Shape(r.s)
  {
    Result(FreeSlot(s, id), [], 0)
  }

  function ReadBy(s: State, c: ClientIx, id: Id): (r: Result)
    requires Shape(s)
    ensures Shape(r.s)
  {
    var i := FindEvent(s.events, id);
    var msg := if i < EVENTS then ReadReply(id, s.events[i].vartype, s.events[i].data[..s.events[i].size])
               else ReadReply(id, VAR_UNDEFINED, []);
    Result(s, Emit(s, c, msg), 0)
  }

  function Stored(s: State, e: Event, c: ClientIx, data: seq<byte>): (e': Event)
    requires EventShape(e) && |data| <= DATA_SIZE
    ensures EventShape(e')
  {
    e.(producer := Some(c),
       producersCount := if e.producer == Some(c) then e.producersCount else Bump(e.producersCount),
       count := Bump(e.count), data := Overwrite(e.data, data), size := |data|, stamp := s.counter)
  }

  function Written(s: State, c: ClientIx, id: Id, flags: Flags, data: seq<byte>, now: Time): (r: Result)
    requires Shape(s) && |data| <= DATA_SIZE
    ensures Shape(r.s)
  {
    var o := Obtain(s, id, flags.force, flags.vartype);
    if o.code != 0 then Result(o.s, [], o.code)
    else if flags.vartype != o.s.events[o.slot].vartype then Result(o.s, [], -3)
    else
      var e := Stored(o.s, o.s.events[o.slot], c, data);
      var t := PutEvent(o.s, o.slot, e).(counter := (s.counter + 1) % 0x1_0000_0000_0000_0000);
      var called := if e.callback.Some? then [Called(e.callback.value, id, data)] else [];
      Result(t, called + SendEvent(t, e, flags, now), 0)
  }

  // A write by the server's own program: it neither checks nor sets the type,
  // has no stamp, and takes the place of any client as the last writer.
  function WrittenByServer(s: State, id: Id, flags: Flags, data: seq<byte>, size: nat, now: Time): (r: Result)
    requires Shape(s)
    requires ServerSize(flags, size) <= |data| && size <= DATA_SIZE
    ensures Shape(r.s)
  {
    var o := Obtain(s, id, flags.force, VAR_UNDEFINED);
    if o.code != 0 then Result(o.s, [], o.code)
    else
      var e := o.s.events[o.slot];
      var n := ServerSize(flags, size);
      var e' := e.(data := Overwrite(e.data, data[..n]), size := n, producer := None,
                   producersCount := if e.producer == None then e.producersCount else Bump(e.producersCount));
      var t := PutEvent(o.s, o.slot, e');
      Result(t, SendEvent(t, e', flags, now), 0)
  }

  function ServerSize(flags: Flags, size: nat): nat {
    if size == 0 then SizeByType(flags.vartype) else size
  }

  // What the server's own program reads: at most `limit` bytes.
  function ReadByServer(s: State, id: Id, limit: nat): Option<seq<byte>>
    requires Shape(s)
  {
    var i := FindEvent(s.events, id);
    if i == EVENTS then None
    else Some(s.events[i].data[..if limit > s.events[i].size then s.events[i].size else limit])
  }

  function Hooked(s: State, id: Id, force: bool, callback: nat): (r: Result)
    requires Shape(s)
    ensures Shape(r.s)
  {
    var o := Obtain(s, id, force, VAR_UNDEFINED);
    if o.code != 0 then Result(o.s, [], o.code)
    else Result(PutEvent(o.s, o.slot, o.s.events[o.slot].(callback := Some(callback))), [], 0)
  }

  function Unhooked(s: State, id: Id): (r: Result)
    requires Shape(s)
    ensures Shape(r.s)
  {
    var i := FindEvent(s.events, id);
    Result(if i == EVENTS then s else PutEvent(s, i, s.events[i].(callback := None)), [], 0)
  }

  // A client introduces itself; the wrong version ends the connection.
  function Greeted(s: State, c: ClientIx, id: Id, major: U32, minor: U32): (r: Result)
    requires Shape(s)
    ensures Shape(r.s)
  {
    var t := if major == MAJOR then s else CloseClient(s, c);
    var version := major % 256 * 256 + minor % 256;
    Result(PutClient(t, c, t.clients[c].(id := id, version := version)),
           Emit(s, c, Status(if major == MAJOR then 0 else 1)), 0)
  }

  // ------------------------------------------------------------ the channels

  function Announced(s: State, c: ClientIx, id: Id, port: U16, flags: U32): (r: Result)
    requires Shape(s)
    ensures Shape(r.s)
  {
    var i := FindChannel(s.channels, id);
    var k := if i < CHANNELS then i else FreeChannel(s.channels);
    if k == CHANNELS then Result(s, [], -1)
    else
      var ch := if i < CHANNELS then s.channels[i]
                else s.channels[k].(id := id, producer := None, announced := 0, producersCount := 0, requested := 0);
      var ch' := ch.(announced := Bump(ch.announced), ip := s.clients[c].addr.ip, port := port, flags := flags,
                     producer := Some(c),
                     producersCount := if ch.producer == Some(c) then ch.producersCount else Bump(ch.producersCount));
      Result(PutChannel(s, k, ch').(channelCount := if i < CHANNELS then s.channelCount else Bump(s.channelCount)),
          [], 0)
  }

  function TicketFor(s: State, c: ClientIx, id: Id): (r: Result)
    requires Shape(s)
    ensures Shape(r.s)
  {
    var i := FindChannel(s.channels, id);
    if i == CHANNELS then Result(s, [], -1)
    else Result(s, Emit(s, c, Ticket(id, s.channels[i].ip, s.channels[i].port, s.channels[i].flags)), 0)
  }

  // --------------------------------------------------------------- the lists

  function EventRecord(e: Event): Option<EventInfo>
    requires EventShape(e)
  {
    if !Active(e) then None
    else Some(EventInfo(e.id, e.vartype, e.data[..if e.size < 32 then e.size else 32], e.size,
                        e.count, e.consumersCount, e.producersCount))
  }

  function ClientRecord(x: Client): Option<ClientInfo> {
    if x.socket == CLOSED then None else Some(ClientInfo(x.id, x.subscribed, x.addr.ip))
  }

  function ChannelRecord(ch: Channel): Option<ChannelInfo> {
    if !Open(ch) then None else Some(ChannelInfo(ch.id, ch.announced, ch.requested, ch.ip, ch.port))
  }

  function EventRecords(s: State): seq<Option<EventInfo>>
    requires Shape(s)
  {
    seq(EVENTS, i requires 0 <= i < EVENTS => EventRecord(s.events[i]))
  }

  function ClientRecords(s: State): seq<Option<ClientInfo>>
    requires Shape(s)
  {
    seq(CLIENTS, i requires 0 <= i < CLIENTS => ClientRecord(s.clients[i]))
  }

  function ChannelRecords(s: State): seq<Option<ChannelInfo>>
    requires Shape(s)
  {
    seq(CHANNELS, i requires 0 <= i < CHANNELS => ChannelRecord(s.channels[i]))
  }

  // A run of messages to one client.
  function EmitAll(s: State, c: ClientIx, msgs: seq<Message>): seq<Output>
    requires Shape(s)
  {
    if msgs == [] then [] else Emit(s, c, msgs[0]) + EmitAll(s, c, msgs[1..])
  }

  function EventPages(pages: seq<Page<EventInfo>>): seq<Message> {
    seq(|pages|, i requires 0 <= i < |pages| => EventPage(pages[i]))
  }

  function ClientPages(pages: seq<Page<ClientInfo>>): seq<Message> {
    seq(|pages|, i requires 0 <= i < |pages| => ClientPage(pages[i]))
  }

  function ChannelPages(pages: seq<Page<ChannelInfo>>): seq<Message> {
    seq(|pages|, i requires 0 <= i < |pages| => ChannelPage(pages[i]))
  }

  function EventsListed(s: State, c: ClientIx, sequence: byte): Result
    requires Shape(s)
  {
    Result(s, EmitAll(s, c, EventPages(Response(EventRecords(s), EVENTS_PER_PAGE, s.eventCount, sequence))), 0)
  }

  function ClientsListed(s: State, c: ClientIx, sequence: byte): Result
    requires Shape(s)
  {
    Result(s, EmitAll(s, c, ClientPages(Response(ClientRecords(s), CLIENTS_PER_PAGE, s.clientCount, sequence))), 0)
  }

  function ChannelsListed(s: State, c: ClientIx, sequence: byte): Result
    requires Shape(s)
  {
    Result(s, EmitAll(s, c, ChannelPages(Response(ChannelRecords(s), CHANNELS_PER_PAGE, s.channelCount, sequence))), 0)
  }

  // ------------------------------------------------------------- dispatching

  // The payload of a request never exceeds the framer's mask.
  predicate Bounded(req: Request) {
    (req.Write? ==> |req.data| <= DATA_SIZE) && (req.Define? ==> req.size <= DATA_SIZE)
  }

  function Processed(s: State, c: ClientIx, req: Request, now: Time): (r: Result)
    requires Shape(s) && Bounded(req)
    ensures Shape(r.s)
  {
    match req
    case Subscribe(id, flags, counter) => Subscribed(s, c, id, flags, counter)
    case Unsubscribe(id) => Unsubscribed(s, c, id)
    case Define(id, flags, size) => Defined(s, id, flags, None, size)
    case Undefine(id) => Undefined(s, id)
    case Write(id, flags, data) => Written(s, c, id, flags, data, now)
    case Read(id) => ReadBy(s, c, id)
    case ClientList(sequence) => ClientsListed(s, c, sequence)
    case EventList(sequence) => EventsListed(s, c, sequence)
    case Hello(id, major, minor) => Greeted(s, c, id, major, minor)
    case Announce(id, port, flags) => Announced(s, c, id, port, flags)
    case TicketRequest(id) => TicketFor(s, c, id)
    case ChannelList(sequence) => ChannelsListed(s, c, sequence)
    case Unknown => Result(s, [], -1)
  }

  // A connection is accepted into a free client slot, if there is one.
  function Accepted(s: State, fd: nat, addr: Addr): (r: Result)
    requires Shape(s)
    ensures Shape(r.s)
  {
    var c := FreeClient(s.clients);
    if c == CLIENTS then Result(s, [], 0)
    else Result(PutClient(s, c, s.clients[c].(socket := fd, addr := addr, subscribed := 0))
                .(clientCount := Bump(s.clientCount)), [], 0)
  }

  // A datagram: from a known address, or from a client that moved or is new
  // and introduces itself.
  function ClientOfDatagram(s: State, addr: Addr, req: Request): (r: (State, nat))
    requires Shape(s)
    ensures Shape(r.0) && r.1 <= CLIENTS
  {
    var c := FindUdpAddr(s.clients, addr);
    if c < CLIENTS || !req.Hello? then (s, c)
    else
      var k := FindUdpId(s.clients, req.id);
      if k < CLIENTS then (PutClient(s, k, s.clients[k].(addr := addr)), k)
      else
        var free := FreeClient(s.clients);
        if free == CLIENTS then (s, CLIENTS)
        else (PutClient(s, free, s.clients[free].(socket := UDP, addr := addr, subscribed := 0))
              .(clientCount := Bump(s.clientCount)), free)
  }

  function DatagramProcessed(s: State, addr: Addr, req: Request, now: Time): (r: Result)
    requires Shape(s) && Bounded(req)
    ensures Shape(r.s)
  {
    var (t, c) := ClientOfDatagram(s, addr, req);
    if c == CLIENTS then Result(t, if req.Hello? then [] else [Refused(addr, 2)], -1)
    else Result(Processed(t, c, req, now).s, Processed(t, c, req, now).out, 0)
  }

  // The server as it is created.
  predicate Initial(s: State) {
    && Shape(s)
    && (forall i | 0 <= i < EVENTS :: !Active(s.events[i]))
    && (forall i | 0 <= i < CHANNELS :: !Open(s.channels[i]))
    && (forall c | 0 <= c < CLIENTS :: s.clients[c].socket == CLOSED)
    && s.eventCount == 0 && s.clientCount == 0 && s.channelCount == 0 && s.counter == 0
    && s.offset == 300
  }
}
