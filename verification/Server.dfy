// The server as the program has it: three tables that are searched and
// updated in place. Each method is the program's routine, proved to do to the
// state what the broker's functions say.
module Server {
  import opened Bytes
  import opened Headers
  import opened Framing
  import opened SyncClock
  import opened ListPaging
  import opened Broker
  import opened BrokerCounting
  import opened BrokerLiveness
  import opened BrokerReads
  import opened BrokerRuns
  import opened BrokerArrivals

  const NO_EVENT: Event := Event(Id(MARKER, 0, 0, 0), seq(DATA_SIZE, _ => 0), VAR_UNDEFINED, 0, 0, 0, 0, 0,
                                 NoConsumers(), None, None)
  const NO_CLIENT: Client := Client(Id(0, 0, 0, 0), CLOSED, Addr(0, 0), 0, 0)
  const NO_CHANNEL: Channel := Channel(Id(MARKER, 0, 0, 0), 0, 0, 0, 0, 0, 0, None)

  class Server {
    const events: array<Event>
    const clients: array<Client>
    const channels: array<Channel>
    var eventCount: U32
    var clientCount: U32
    var channelCount: U32
    var counter: Word
    var offset: int
    // Everything that has left the server.
    var out: seq<Output>

    function Model(): State
      reads this, events, clients, channels
    {
      State(events[..], clients[..], channels[..], eventCount, clientCount, channelCount, counter, offset)
    }

    ghost predicate Valid()
      reads this, events, clients, channels
    {
      Shape(Model())
    }

    constructor ()
      ensures Valid() && fresh(events) && fresh(clients) && fresh(channels)
      ensures Initial(Model()) && out == []
    {
      events := new Event[EVENTS](_ => NO_EVENT);
      clients := new Client[CLIENTS](_ => NO_CLIENT);
      channels := new Channel[CHANNELS](_ => NO_CHANNEL);
      eventCount, clientCount, channelCount, counter, offset := 0, 0, 0, 0, 300;
      out := [];
    }

    // --------------------------------------------------------- the scans

    method FindEventSlot(id: Id) returns (i: nat)
      requires Valid()
      ensures i == FindEvent(events[..], id)
    {
      ghost var all := events[..];
      i := 0;
      while i < EVENTS
        invariant 0 <= i <= EVENTS
        invariant FindEvent(all, id) == i + FindEvent(all[i..], id)
      {
        assert all[i..][1..] == all[i + 1..];
        if events[i].id == id {
          return;
        }
        i := i + 1;
      }
    }

    method FindChannelSlot(id: Id) returns (i: nat)
      requires Valid()
      ensures i == FindChannel(channels[..], id)
    {
      ghost var all := channels[..];
      i := 0;
      while i < CHANNELS
        invariant 0 <= i <= CHANNELS
        invariant FindChannel(all, id) == i + FindChannel(all[i..], id)
      {
        assert all[i..][1..] == all[i + 1..];
        if channels[i].id == id {
          return;
        }
        i := i + 1;
      }
    }

    method GetFreeClient() returns (c: nat)
      requires Valid()
      ensures c == FreeClient(clients[..])
    {
      ghost var all := clients[..];
      c := 0;
      while c < CLIENTS
        invariant 0 <= c <= CLIENTS
        invariant FreeClient(all) == c + FreeClient(all[c..])
      {
        assert all[c..][1..] == all[c + 1..];
        if clients[c].socket == CLOSED {
          return;
        }
        c := c + 1;
      }
    }

    method FindUClientAddr(addr: Addr) returns (c: nat)
      requires Valid()
      ensures c == FindUdpAddr(clients[..], addr)
    {
      ghost var all := clients[..];
      c := 0;
      while c < CLIENTS
        invariant 0 <= c <= CLIENTS
        invariant FindUdpAddr(all, addr) == c + FindUdpAddr(all[c..], addr)
      {
        assert all[c..][1..] == all[c + 1..];
        if clients[c].socket == UDP && clients[c].addr == addr {
          return;
        }
        c := c + 1;
      }
    }

    method FindUClientId(id: Id) returns (c: nat)
      requires Valid()
      ensures c == FindUdpId(clients[..], id)
    {
      ghost var all := clients[..];
      c := 0;
      while c < CLIENTS
        invariant 0 <= c <= CLIENTS
        invariant FindUdpId(all, id) == c + FindUdpId(all[c..], id)
      {
        assert all[c..][1..] == all[c + 1..];
        if clients[c].socket == UDP && clients[c].id == id {
          return;
        }
        c := c + 1;
      }
    }

    // --------------------------------------------------------- the slots

    // A free slot is initialised for a new event; EVENTS when there is none.
    method CreateEvent(id: Id, vartype: VarType) returns (k: nat)
      requires Valid()
      modifies this`eventCount, events
      ensures Valid() && k == FreeEvent(old(events[..])) <= EVENTS
      ensures k == EVENTS ==> Model() == old(Model())
      ensures k < EVENTS ==>
        Model() == PutEvent(old(Model()), k, FreshEvent(old(events[k]), id).(vartype := vartype))
                   .(eventCount := Bump(old(eventCount)))
    {
      ghost var all := events[..];
      k := 0;
      while k < EVENTS
        invariant 0 <= k <= EVENTS && events[..] == all
        invariant FreeEvent(all) == k + FreeEvent(all[k..])
      {
        assert all[k..][1..] == all[k + 1..];
        if events[k].id.w0 == MARKER {
          break;
        }
        k := k + 1;
      }
      if k < EVENTS {
        var consumers := EmptyConsumers();
        var data := events[k].data[0 := 0];
        events[k] := Event(id, data, vartype, 0, 0, 0, 0, 0, consumers, None, None);
        eventCount := Bump(eventCount);
        assert events[..] == all[k := events[k]];
      }
    }

    static method EmptyConsumers() returns (consumers: seq<Option<ClientIx>>)
      ensures consumers == NoConsumers()
    {
      consumers := [];
      var i := 0;
      while i < CLIENTS
        invariant i == |consumers| <= CLIENTS && forall j | 0 <= j < i :: consumers[j] == None
      {
        consumers := consumers + [None];
        i := i + 1;
      }
    }

    // The common start of subscribe, write, server write and server
    // subscribe: find the event, or create it when that is forced.
    method FindOrCreate(id: Id, force: bool, vartype: VarType) returns (i: nat, code: int)
      requires Valid()
      modifies this`eventCount, events
      ensures Valid()
      ensures var o := Obtain(old(Model()), id, force, vartype); Model() == o.s && code == o.code && i == o.slot
    {
      i := FindEventSlot(id);
      if i < EVENTS {
        return i, 0;
      }
      if !force {
        return i, -1;
      }
      i := CreateEvent(id, vartype);
      if i == EVENTS {
        return i, -2;
      }
      code := 0;
    }

    method FreeEventSlot(id: Id)
      requires Valid()
      modifies this`eventCount, events
      ensures Valid() && Model() == FreeSlot(old(Model()), id)
    {
      var i := FindEventSlot(id);
      if i < EVENTS {
        events[i] := events[i].(id := events[i].id.(w0 := MARKER));
        eventCount := Drop(eventCount);
      }
    }

    static method IndexOfConsumer(consumers: seq<Option<ClientIx>>, x: Option<ClientIx>) returns (j: nat)
      requires |consumers| == CLIENTS
      ensures j == IndexOf(consumers, x)
    {
      j := 0;
      while j < CLIENTS
        invariant 0 <= j <= CLIENTS
        invariant IndexOf(consumers, x) == j + IndexOf(consumers[j..], x)
      {
        assert consumers[j..][1..] == consumers[j + 1..];
        if consumers[j] == x {
          return;
        }
        j := j + 1;
      }
    }

    method AddClientToEvent(c: ClientIx, i: nat) returns (code: int)
      requires Valid() && i < EVENTS
      modifies events, clients
      ensures Valid() && (Model(), code) == AddConsumer(old(Model()), i, c)
    {
      var j := IndexOfConsumer(events[i].consumers, Some(c));
      if j < CLIENTS {
        return 0;
      }
      j := IndexOfConsumer(events[i].consumers, None);
      if j == CLIENTS {
        return -1;
      }
      events[i] := events[i].(consumers := events[i].consumers[j := Some(c)],
                              consumersCount := Bump(events[i].consumersCount));
      clients[c] := clients[c].(subscribed := clients[c].subscribed + 1);
      code := 0;
    }

    method RemoveClientFromEvent(c: ClientIx, i: nat)
      requires Valid() && i < EVENTS
      modifies events, clients
      ensures Valid() && Model() == RemoveConsumer(old(Model()), i, c)
    {
      var j := IndexOfConsumer(events[i].consumers, Some(c));
      if j < CLIENTS {
        events[i] := events[i].(consumers := events[i].consumers[j := None],
                                consumersCount := Drop(events[i].consumersCount));
        clients[c] := clients[c].(subscribed := clients[c].subscribed - 1);
      }
    }

    method RemoveClientFromEvents(c: ClientIx)
      requires Valid()
      modifies events, clients
      ensures Valid() && Model() == RemoveFromEvents(old(Model()), c, EVENTS)
    {
      hide RemoveConsumer;
      var i := 0;
      while i < EVENTS
        invariant 0 <= i <= EVENTS
        invariant Valid() && Model() == RemoveFromEvents(old(Model()), c, i)
      {
        if events[i].id.w0 != MARKER {
          RemoveClientFromEvent(c, i);
        }
        i := i + 1;
      }
    }

    method RemoveChannelsOfClient(c: ClientIx)
      requires Valid()
      modifies channels
      ensures Valid() && Model() == DropChannels(old(Model()), c)
    {
      var i := 0;
      while i < CHANNELS
        invariant 0 <= i <= CHANNELS
        invariant forall k | 0 <= k < CHANNELS ::
          channels[k] == if k < i then Dropped(old(channels[k]), c) else old(channels[k])
      {
        if channels[i].id.w0 != MARKER {
          if channels[i].producer == Some(c) {
            channels[i] := channels[i].(id := channels[i].id.(w0 := MARKER));
          }
        }
        i := i + 1;
      }
      assert channels[..] == DroppedAll(old(channels[..]), c);
    }

    method CloseClientSocket(c: ClientIx)
      requires Valid()
      modifies events, clients, channels
      ensures Valid() && Model() == CloseClient(old(Model()), c)
    {
      hide RemoveFromEvents, DropChannels;
      RemoveClientFromEvents(c);
      RemoveChannelsOfClient(c);
      clients[c] := clients[c].(socket := CLOSED);
    }

    // --------------------------------------------------------- sending

    method ClientSend(c: ClientIx, msg: Message)
      requires Valid()
      modifies this`out
      ensures Valid() && out == old(out) + Emit(Model(), c, msg)
    {
      if clients[c].socket > CLOSED {
        out := out + [Sent(c, msg)];
      } else if clients[c].socket == UDP {
        out := out + [Sent(c, msg)];
      }
    }

    // The packet of an event, stamped with its firing time when that is asked.
    method FillEvent(i: nat, flags: Flags, now: Time) returns (msg: Message)
      requires Valid() && i < EVENTS
      ensures msg == NotifyOf(Model(), events[i], flags.sync, now)
    {
      var e := events[i];
      var sync := None;
      if flags.sync {
        var data := SyncCalculate(now, offset);
        sync := Some(data);
      }
      msg := Notify(e.id, e.vartype, sync, e.data[..e.size]);
    }

    // The walk over the consumer slots of an event.
    method SendToSlots(i: nat, flags: Flags, msg: Message)
      requires Valid() && i < EVENTS
      modifies this`out
      ensures Valid()
      ensures out == old(out)
                     + Fan(Model(), events[i].consumers, if flags.echo then None else events[i].producer, msg)
    {
      var e := events[i];
      assert EventShape(e);
      hide Emit, Shape, Fan;
      ghost var s := Model();
      ghost var skip := if flags.echo then None else e.producer;
      var j := 0;
      FanNobody(s, e.consumers, skip, msg);
      while j < CLIENTS
        invariant 0 <= j <= CLIENTS && Model() == s
        invariant out == old(out) + Fan(s, e.consumers[..j], skip, msg)
      {
        FanNext(s, e.consumers, j, skip, msg, old(out));
        var x := e.consumers[j];
        if x.None? || (x == e.producer && !flags.echo) {
          j := j + 1;
          continue;
        }
        ClientSend(x.value, msg);
        j := j + 1;
      }
      assert e.consumers[..j] == e.consumers;
    }

    method SendToConsumers(i: nat, flags: Flags, now: Time)
      requires Valid() && i < EVENTS
      modifies this`out
      ensures Valid() && out == old(out) + SendEvent(Model(), events[i], flags, now)
    {
      assert EventShape(events[i]);
      hide NotifyOf, Shape, Fan;
      var msg := FillEvent(i, flags, now);
      SendToSlots(i, flags, msg);
    }

    // --------------------------------------------------------- requests

    method ClientSubscribe(c: ClientIx, id: Id, flags: Flags, presented: Word) returns (code: int)
      requires Valid()
      modifies this, events, clients
      ensures Valid()
      ensures var r := Subscribed(old(Model()), c, id, flags, presented);
        Model() == r.s && out == old(out) + r.out && code == r.code
    {
      hide Obtain, AddConsumer;
      var i;
      i, code := FindOrCreate(id, flags.force, flags.vartype);
      if code != 0 {
        return;
      }
      if events[i].vartype == VAR_ANY || flags.vartype == VAR_ANY || flags.vartype == events[i].vartype {
        var _ := AddClientToEvent(c, i);
      } else {
        return -3;
      }
      if presented < events[i].stamp {
        ClientSend(c, Resend(events[i].id, events[i].data[..events[i].size]));
      }
    }

    method ClientUnsubscribe(c: ClientIx, id: Id)
      requires Valid()
      modifies events, clients
      ensures Valid() && Model() == Unsubscribed(old(Model()), c, id).s
    {
      var i := FindEventSlot(id);
      if i < EVENTS {
        RemoveClientFromEvent(c, i);
      }
    }

    // DEFINE, for clients without and for the server's program with a value.
    method AddEvent(id: Id, flags: Flags, data: Option<seq<byte>>, size: nat) returns (code: int)
      requires Valid()
      requires data.Some? ==> |data.value| >= DefinedSize(flags, size)
      modifies this`eventCount, events
      ensures Valid()
      ensures var r := Defined(old(Model()), id, flags, data, size); Model() == r.s && code == r.code
    {
      hide FindEvent, FreeEvent;
      ghost var was := Model();
      var i := FindEventSlot(id);
      if i == EVENTS {
        i := CreateEvent(id, VAR_UNDEFINED);
        if i == EVENTS {
          return -1;
        }
      } else {
        if !flags.force {
          return -2;
        }
      }
      ghost var o := Obtain(was, id, true, VAR_UNDEFINED);
      assert Model() == o.s && o.slot == i && o.code == 0;
      hide Obtain;
      var n := if 1 < size < DATA_SIZE then size else SizeByType(flags.vartype);
      events[i] := events[i].(vartype := flags.vartype, size := n);
      if data.Some? {
        events[i] := events[i].(data := data.value[..n] + events[i].data[n..]);
      }
      assert events[..] == o.s.events[i := events[i]];
      code := 0;
    }

    method ServerDefine(id: Id, flags: Flags, data: Option<seq<byte>>, size: nat) returns (code: int)
      requires Valid()
      requires data.Some? ==> |data.value| >= DefinedSize(flags, size)
      modifies this`eventCount, events
      ensures Valid()
      ensures size > DATA_SIZE ==> code == -5 && Model() == old(Model())
      ensures size <= DATA_SIZE ==>
        var r := Defined(old(Model()), id, flags, data, size); Model() == r.s && code == r.code
    {
      if size > DATA_SIZE {
        return -5;
      }
      code := AddEvent(id, flags, data, size);
    }

    method ClientRead(c: ClientIx, id: Id)
      requires Valid()
      modifies this`out
      ensures Valid()
      ensures var r := ReadBy(old(Model()), c, id); Model() == r.s && out == old(out) + r.out
    {
      var i := FindEventSlot(id);
      if i < EVENTS {
        ClientSend(c, ReadReply(id, events[i].vartype, events[i].data[..events[i].size]));
      } else {
        ClientSend(c, ReadReply(id, VAR_UNDEFINED, []));
      }
    }

    // The written bytes go into the event's slot, under the next stamp.
    method StoreWrite(i: nat, c: ClientIx, data: seq<byte>)
      requires Valid() && i < EVENTS && |data| <= DATA_SIZE
      modifies this`counter, events
      ensures Valid()
      ensures Model() == PutEvent(old(Model()), i, Stored(old(Model()), old(events[i]), c, data))
                         .(counter := (old(counter) + 1) % 0x1_0000_0000_0000_0000)
    {
      if events[i].producer != Some(c) {
        events[i] := events[i].(producer := Some(c), producersCount := Bump(events[i].producersCount));
      }
      events[i] := events[i].(count := Bump(events[i].count));
      events[i] := events[i].(data := data + events[i].data[|data|..], size := |data|, stamp := counter);
      counter := (counter + 1) % 0x1_0000_0000_0000_0000;
      assert events[..] == old(events[..])[i := events[i]];
    }

    method ClientWrite(c: ClientIx, id: Id, flags: Flags, data: seq<byte>, now: Time) returns (code: int)
      requires Valid() && |data| <= DATA_SIZE
      modifies this, events
      ensures Valid()
      ensures var r := Written(old(Model()), c, id, flags, data, now);
        Model() == r.s && out == old(out) + r.out && code == r.code
    {
      hide Obtain, SendEvent, Stored;
      var i;
      i, code := FindOrCreate(id, flags.force, flags.vartype);
      if code != 0 {
        return;
      }
      if flags.vartype != events[i].vartype {
        return -3;
      }
      StoreWrite(i, c, data);
      if events[i].callback.Some? {
        out := out + [Called(events[i].callback.value, id, data)];
      }
      SendToConsumers(i, flags, now);
    }

    method ServerWrite(id: Id, flags: Flags, data: seq<byte>, size: nat, now: Time) returns (code: int)
      requires Valid()
      requires ServerSize(flags, size) <= |data| && size <= DATA_SIZE
      modifies this, events
      ensures Valid()
      ensures var r := WrittenByServer(old(Model()), id, flags, data, size, now);
        Model() == r.s && out == old(out) + r.out && code == r.code
    {
      hide Obtain, SendEvent;
      var i;
      i, code := FindOrCreate(id, flags.force, VAR_UNDEFINED);
      if code != 0 {
        return;
      }
      var n := size;
      if n == 0 {
        n := SizeByType(flags.vartype);
      }
      events[i] := events[i].(data := data[..n] + events[i].data[n..], size := n);
      if events[i].producer != None {
        events[i] := events[i].(producer := None, producersCount := Bump(events[i].producersCount));
      }
      SendToConsumers(i, flags, now);
    }

    method ServerRead(id: Id, limit: nat) returns (data: Option<seq<byte>>)
      requires Valid()
      ensures data == ReadByServer(Model(), id, limit)
    {
      var i := FindEventSlot(id);
      if i == EVENTS {
        return None;
      }
      var n := limit;
      if n > events[i].size {
        n := events[i].size;
      }
      data := Some(events[i].data[..n]);
    }

    method ServerSubscribeEvent(id: Id, force: bool, callback: nat) returns (code: int)
      requires Valid()
      modifies this`eventCount, events
      ensures Valid()
      ensures var r := Hooked(old(Model()), id, force, callback); Model() == r.s && code == r.code
    {
      hide Obtain;
      var i;
      i, code := FindOrCreate(id, force, VAR_UNDEFINED);
      if code != 0 {
        return;
      }
      events[i] := events[i].(callback := Some(callback));
    }

    method ServerUnsubscribeEvent(id: Id)
      requires Valid()
      modifies events
      ensures Valid() && Model() == Unhooked(old(Model()), id).s
    {
      var i := FindEventSlot(id);
      if i < EVENTS {
        events[i] := events[i].(callback := None);
      }
    }

    // A client introduces itself.
    method ClientHello(c: ClientIx, id: Id, major: U32, minor: U32)
      requires Valid()
      modifies this`out, events, clients, channels
      ensures Valid()
      ensures var r := Greeted(old(Model()), c, id, major, minor); Model() == r.s && out == old(out) + r.out
    {
      hide CloseClient;
      if major != MAJOR {
        ClientSend(c, Status(1));
        CloseClientSocket(c);
      } else {
        ClientSend(c, Status(0));
      }
      clients[c] := clients[c].(id := id, version := major % 256 * 256 + minor % 256);
    }

    // --------------------------------------------------------- channels

    method CreateChannel(id: Id) returns (k: nat)
      requires Valid()
      modifies this`channelCount, channels
      ensures Valid() && k == FreeChannel(old(channels[..])) <= CHANNELS
      ensures k == CHANNELS ==> Model() == old(Model())
      ensures k < CHANNELS ==>
        Model() == PutChannel(old(Model()), k, old(channels[k]).(id := id, producer := None, announced := 0,
                                                                producersCount := 0, requested := 0))
                   .(channelCount := Bump(old(channelCount)))
    {
      ghost var all := channels[..];
      k := 0;
      while k < CHANNELS
        invariant 0 <= k <= CHANNELS && channels[..] == all
        invariant FreeChannel(all) == k + FreeChannel(all[k..])
      {
        assert all[k..][1..] == all[k + 1..];
        if channels[k].id.w0 == MARKER {
          channels[k] := channels[k].(producer := None, announced := 0, producersCount := 0, requested := 0);
          channels[k] := channels[k].(id := id);
          channelCount := Bump(channelCount);
          assert channels[..] == all[k := channels[k]];
          return;
        }
        k := k + 1;
      }
    }

    method AddChannel(c: ClientIx, id: Id, port: U16, flags: U32) returns (code: int)
      requires Valid()
      modifies this`channelCount, channels
      ensures Valid()
      ensures var r := Announced(old(Model()), c, id, port, flags); Model() == r.s && code == r.code
    {
      hide FindChannel, FreeChannel;
      var i := FindChannelSlot(id);
      if i == CHANNELS {
        i := CreateChannel(id);
        if i == CHANNELS {
          return -1;
        }
      }
      channels[i] := channels[i].(announced := Bump(channels[i].announced));
      channels[i] := channels[i].(ip := clients[c].addr.ip, port := port, flags := flags);
      if channels[i].producer != Some(c) {
        channels[i] := channels[i].(producer := Some(c), producersCount := Bump(channels[i].producersCount));
      }
      code := 0;
    }

    method ClientChannelRequest(c: ClientIx, id: Id) returns (code: int)
      requires Valid()
      modifies this`out
      ensures Valid()
      ensures var r := TicketFor(old(Model()), c, id); Model() == r.s && out == old(out) + r.out && code == r.code
    {
      var i := FindChannelSlot(id);
      if i == CHANNELS {
        return -1;
      }
      ClientSend(c, Ticket(id, channels[i].ip, channels[i].port, channels[i].flags));
      code := 0;
    }

    // --------------------------------------------------------- lists

    method SendAll(c: ClientIx, msgs: seq<Message>)
      requires Valid()
      modifies this`out
      ensures Valid() && Model() == old(Model()) && out == old(out) + EmitAll(Model(), c, msgs)
    {
      hide Emit, Shape;
      ghost var s := Model();
      var i := 0;
      assert msgs[i..] == msgs;
      while i < |msgs|
        invariant 0 <= i <= |msgs| && Model() == s
        invariant out + EmitAll(s, c, msgs[i..]) == old(out) + EmitAll(s, c, msgs)
      {
        assert msgs[i..][1..] == msgs[i + 1..];
        ghost var before := out;
        ClientSend(c, msgs[i]);
        assert before + (Emit(s, c, msgs[i]) + EmitAll(s, c, msgs[i + 1..])) == out + EmitAll(s, c, msgs[i + 1..]);
        i := i + 1;
      }
    }

    method ClientSendEventList(c: ClientIx, sequence: byte)
      requires Valid()
      modifies this`out
      ensures Valid()
      ensures var r := EventsListed(old(Model()), c, sequence); Model() == r.s && out == old(out) + r.out
    {
      hide Response, EmitAll;
      var pages := SendList(EventRecords(Model()), EVENTS_PER_PAGE, eventCount, sequence);
      SendAll(c, EventPages(pages));
    }

    method ClientSendClientList(c: ClientIx, sequence: byte)
      requires Valid()
      modifies this`out
      ensures Valid()
      ensures var r := ClientsListed(old(Model()), c, sequence); Model() == r.s && out == old(out) + r.out
    {
      hide Response, EmitAll;
      var pages := SendList(ClientRecords(Model()), CLIENTS_PER_PAGE, clientCount, sequence);
      SendAll(c, ClientPages(pages));
    }

    method ClientSendChannelList(c: ClientIx, sequence: byte)
      requires Valid()
      modifies this`out
      ensures Valid()
      ensures var r := ChannelsListed(old(Model()), c, sequence); Model() == r.s && out == old(out) + r.out
    {
      hide Response, EmitAll;
      var pages := SendList(ChannelRecords(Model()), CHANNELS_PER_PAGE, channelCount, sequence);
      SendAll(c, ChannelPages(pages));
    }

    // --------------------------------------------------------- dispatching

    method ClientProcessPacket(c: ClientIx, req: Request, now: Time)
      requires Valid() && Bounded(req)
      modifies this, events, clients, channels
      ensures Valid()
      ensures var r := Processed(old(Model()), c, req, now); Model() == r.s && out == old(out) + r.out
    {
      hide Subscribed, Unsubscribed, Defined, Undefined, Written, ReadBy, ClientsListed, EventsListed, Greeted;
      hide Announced, TicketFor, ChannelsListed, Shape;
      assert out + [] == out;
      match req
      case Subscribe(id, flags, counter) => var _ := ClientSubscribe(c, id, flags, counter);
      case Unsubscribe(id) => ClientUnsubscribe(c, id); UnsubscribeIsSilent(old(Model()), c, id);
      case Define(id, flags, size) =>
        var _ := AddEvent(id, flags, None, size);
        DefineIsSilent(old(Model()), id, flags, None, size);
      case Undefine(id) => FreeEventSlot(id); UndefineIsSilent(old(Model()), id);
      case Write(id, flags, data) => var _ := ClientWrite(c, id, flags, data, now);
      case Read(id) => ClientRead(c, id);
      case ClientList(sequence) => ClientSendClientList(c, sequence);
      case EventList(sequence) => ClientSendEventList(c, sequence);
      case Hello(id, major, minor) => ClientHello(c, id, major, minor);
      case Announce(id, port, flags) =>
        var _ := AddChannel(c, id, port, flags);
        AnnounceIsSilent(old(Model()), c, id, port, flags);
      case TicketRequest(id) => var _ := ClientChannelRequest(c, id);
      case ChannelList(sequence) => ClientSendChannelList(c, sequence);
      case Unknown =>
    }

    // The packets of one read, one after another, all to the same client.
    method ClientProcessPackets(c: ClientIx, packets: seq<seq<byte>>, behind: nat -> Tail, now: nat -> Time)
      requires Valid()
      requires forall i | 0 <= i < |packets| :: |packets[i]| >= HEADER
      requires AllBounded(Arrivals(packets, behind, now))
      modifies this, events, clients, channels
      ensures Valid()
      ensures var r := Dispatched(old(Model()), c, Arrivals(packets, behind, now));
        Model() == r.s && out == old(out) + r.out
    {
      hide Shape, Processed, Dispatched, AllBounded;
      ghost var s := Model();
      ghost var all := Arrivals(packets, behind, now);
      var i := 0;
      assert all[i..] == all;
      while i < |packets|
        invariant 0 <= i <= |packets|
        invariant Valid() && AllBounded(all[i..])
        invariant Dispatched(s, c, all).s == Dispatched(Model(), c, all[i..]).s
        invariant old(out) + Dispatched(s, c, all).out == out + Dispatched(Model(), c, all[i..]).out
      {
        DispatchNext(Model(), c, all, i, out);
        ClientProcessPacket(c, RequestOf(PacketOf(packets[i]), behind(i)), now(i));
        i := i + 1;
      }
      DispatchedNone(Model(), c, all[i..], out);
    }

    // One readable event of a client's socket: the framer finds the packets
    // of the read, and each is dispatched to the client.
    method ClientHandler(c: ClientIx, buffer: StreamBuffer, incoming: Incoming, behind: nat -> Tail, now: nat -> Time)
      requires Valid() && buffer.Valid()
      requires incoming.Bytes? ==> |incoming.chunk| <= BUFFER_SIZE - buffer.received
      modifies this, events, clients, channels, buffer, buffer.buffer
      ensures Valid() && buffer.Valid()
      ensures incoming == TryAgain ==>
        Model() == old(Model()) && out == old(out) && buffer.Residue() == old(buffer.Residue())
      ensures incoming == Broken || incoming == Bytes([]) ==>
        Model() == CloseClient(old(Model()), c) && out == old(out) && buffer.Residue() == old(buffer.Residue())
      ensures incoming.Bytes? && incoming.chunk != [] ==>
        var r := Dispatched(old(Model()), c, RequestsRead(old(buffer.Residue()), incoming.chunk, behind, now));
        && Model() == r.s && out == old(out) + r.out
        && buffer.Residue() == Receive(old(buffer.Residue()), incoming.chunk).rest
    {
      hide Shape, Dispatched, CloseClient, Receive, Arrivals;
      match incoming
      case TryAgain =>
      case Broken => CloseClientSocket(c);
      case Bytes(chunk) =>
        if chunk == [] {
          CloseClientSocket(c);
          return;
        }
        ghost var s := Model();
        var packets := buffer.Handle(chunk);
        ReceivedIsBounded(old(buffer.Residue()), chunk, behind, now);
        ClientProcessPackets(c, packets, behind, now);
    }

    // A connection is waiting.
    method AddClient(fd: nat, addr: Addr)
      requires Valid()
      modifies this`clientCount, clients
      ensures Valid() && Model() == Accepted(old(Model()), fd, addr).s
    {
      var c := GetFreeClient();
      if c == CLIENTS {
        return;
      }
      clients[c] := clients[c].(socket := fd, addr := addr);
      clients[c] := clients[c].(subscribed := 0);
      clientCount := Bump(clientCount);
    }

    method AddUClient(addr: Addr) returns (c: nat)
      requires Valid()
      modifies this`clientCount, clients
      ensures Valid() && c == FreeClient(old(clients[..])) <= CLIENTS
      ensures c == CLIENTS ==> Model() == old(Model())
      ensures c < CLIENTS ==>
        Model() == PutClient(old(Model()), c, old(clients[c]).(socket := UDP, addr := addr, subscribed := 0))
                   .(clientCount := Bump(old(clientCount)))
    {
      c := GetFreeClient();
      if c == CLIENTS {
        return;
      }
      clients[c] := clients[c].(addr := addr);
      clients[c] := clients[c].(socket := UDP);
      clients[c] := clients[c].(subscribed := 0);
      clientCount := Bump(clientCount);
    }

    method UClientProcessPacket(addr: Addr, req: Request, now: Time) returns (code: int)
      requires Valid() && Bounded(req)
      modifies this, events, clients, channels
      ensures Valid()
      ensures var r := DatagramProcessed(old(Model()), addr, req, now);
        Model() == r.s && out == old(out) + r.out && code == r.code
    {
      hide Processed, FindUdpAddr, FindUdpId, FreeClient;
      var c := FindUClientAddr(addr);
      if c == CLIENTS {
        if req.Hello? {
          c := FindUClientId(req.id);
          if c == CLIENTS {
            c := AddUClient(addr);
            if c == CLIENTS {
              assert out + [] == out;
              return -1;
            }
          } else {
            clients[c] := clients[c].(addr := addr);
          }
        } else {
          out := out + [Refused(addr, 2)];
          return -1;
        }
      }
      ClientProcessPacket(c, req, now);
      code := 0;
    }

    // One datagram, which lies at the front of a buffer that may hold more
    // from earlier ones: its size field is not compared with its length.
    method UdpHandler(addr: Addr, buffer: seq<byte>, readSize: nat, now: Time)
      requires Valid() && |buffer| == BUFFER_SIZE
      modifies this, events, clients, channels
      ensures Valid()
      ensures readSize < HEADER || !HasMagic(buffer) ==> Model() == old(Model()) && out == old(out)
      ensures readSize >= HEADER && HasMagic(buffer) ==>
        var r := DatagramProcessed(old(Model()), addr, DatagramRequest(buffer), now);
        Model() == r.s && out == old(out) + r.out
    {
      hide DatagramProcessed, DatagramRequest, Shape;
      if readSize < HEADER || buffer[0] != MAGIC || buffer[59] != MAGIC_DATA {
        return;
      }
      var _ := UClientProcessPacket(addr, DatagramRequest(buffer), now);
    }

    // A call by the server's own program.
    method ProgramCall(x: Input)
      requires Valid() && !x.Packet? && !x.Datagram? && !x.Connection? && !x.Gone?
      modifies this, events
      ensures Valid()
      ensures Model() == Step(old(Model()), x).s && out == old(out) + Step(old(Model()), x).out
    {
      hide Shape, WrittenByServer, Defined, Undefined, Hooked, Unhooked;
      assert out + [] == out;
      match x
      case ServerWrite(id, flags, data, size, now) => var _ := ServerWrite(id, flags, data, size, now);
      case ServerDefine(id, flags, value, size) =>
        var _ := ServerDefine(id, flags, value, size);
        DefineIsSilent(old(Model()), id, flags, value, size);
      case ServerUndefine(id) => FreeEventSlot(id); UndefineIsSilent(old(Model()), id);
      case ServerHook(id, force, callback) =>
        var _ := ServerSubscribeEvent(id, force, callback);
        HookIsSilent(old(Model()), id, force, callback);
      case ServerUnhook(id) => ServerUnsubscribeEvent(id); HookIsSilent(old(Model()), id, false, 0);
    }

    // A client's socket is readable: its own buffer changes, and no other.
    method ClientReady(buffers: seq<StreamBuffer>, c: ClientIx, incoming: Incoming, behind: nat -> Tail,
        now: nat -> Time)
      requires Valid() && Separate(buffers)
      requires Sound(World(Model(), Residues(buffers)), Readable(c, incoming, behind, now))
      modifies this, events, clients, channels, buffers, Inside(buffers)
      ensures Valid() && Separate(buffers)
      ensures var w := old(World(Model(), Residues(buffers)));
              var e := Readable(c, incoming, behind, now);
        World(Model(), Residues(buffers)) == Served(w, e) && out == old(out) + Sends(w, e)
    {
      hide Shape, Dispatched, CloseClient, Receive, RequestsRead;
      assert out + [] == out;
      ghost var was := Residues(buffers);
      var buffer := buffers[c];
      ClientHandler(c, buffer, incoming, behind, now);
      assert forall i | 0 <= i < CLIENTS && i != c :: buffers[i].Valid() && buffers[i].Residue() == was[i];
      assert Residues(buffers) == was[c := buffer.Residue()];
    }

    // One thing that the loop is woken for: the routine that is registered
    // for the socket is called, with the buffer of its client slot.
    method Wake(buffers: seq<StreamBuffer>, e: Ready)
      requires Valid() && Separate(buffers) && Sound(World(Model(), Residues(buffers)), e)
      modifies this, events, clients, channels, buffers, Inside(buffers)
      ensures Valid() && Separate(buffers)
      ensures World(Model(), Residues(buffers)) == Served(old(World(Model(), Residues(buffers))), e)
      ensures out == old(out) + Sends(old(World(Model(), Residues(buffers))), e)
    {
      hide Shape, Dispatched, DatagramProcessed, Accepted, CloseClient, Step, Receive, RequestsRead, DatagramRequest;
      assert out + [] == out;
      match e
      case Readable(c, incoming, behind, now) => ClientReady(buffers, c, incoming, behind, now);
      case DatagramReady(addr, bytes, size, now) => UdpHandler(addr, bytes, size, now);
      case Connecting(fd, addr) => AddClient(fd, addr);
      case Program(x) => ProgramCall(x);
    }

    // The server's loop: whatever the sockets are ready for, in the order in
    // which it comes.
    method RecvClients(buffers: seq<StreamBuffer>, es: seq<Ready>)
      requires Valid() && Separate(buffers) && AllSound(World(Model(), Residues(buffers)), es)
      modifies this, events, clients, channels, buffers, Inside(buffers)
      ensures Valid() && Separate(buffers)
      ensures World(Model(), Residues(buffers)) == ServedAll(old(World(Model(), Residues(buffers))), es)
      ensures out == old(out) + AllSends(old(World(Model(), Residues(buffers))), es)
      ensures StartsWell(old(World(Model(), Residues(buffers))), es) ==> Truthful(Model())
    {
      hide Shape, Served, Sends, Sound, Residues, AllSound, AllSends, ServedAll, StartsWell, Truthful;
      ghost var w := World(Model(), Residues(buffers));
      var i := 0;
      LoopBegins(w, es, out);
      while i < |es|
        invariant 0 <= i <= |es|
        invariant Valid() && Separate(buffers) && AllSound(w, es[..i])
        invariant World(Model(), Residues(buffers)) == ServedAll(w, es[..i])
        invariant out == old(out) + AllSends(w, es[..i])
      {
        LoopGoesOn(w, es, i, old(out));
        Wake(buffers, es[i]);
        i := i + 1;
      }
      assert es[..i] == es;
      if StartsWell(w, es) {
        OrderlyLoopReaches(w, es);
      }
    }
  }

  // The receive buffers of the client slots: all there, and no two of them
  // the same.
  ghost predicate Separate(buffers: seq<StreamBuffer>)
    reads buffers, Inside(buffers)
  {
    && |buffers| == CLIENTS
    && (forall i | 0 <= i < CLIENTS :: buffers[i].Valid())
    && forall i, j | 0 <= i < j < CLIENTS :: buffers[i] != buffers[j] && buffers[i].buffer != buffers[j].buffer
  }

  ghost function Inside(buffers: seq<StreamBuffer>): set<array<byte>> {
    set i | 0 <= i < |buffers| :: buffers[i].buffer
  }

  ghost function Residues(buffers: seq<StreamBuffer>): (rs: seq<seq<byte>>)
    requires Separate(buffers)
    reads buffers, Inside(buffers)
    ensures |rs| == CLIENTS && forall i | 0 <= i < CLIENTS :: rs[i] == buffers[i].Residue()
  {
    seq(CLIENTS, i requires 0 <= i < CLIENTS && Separate(buffers)
        reads buffers, Inside(buffers) => buffers[i].Residue())
  }

  // The loop, turn by turn.
  lemma LoopBegins(w: World, es: seq<Ready>, out: seq<Output>)
    requires WorldShape(w)
    ensures AllSound(w, es[..0]) && ServedAll(w, es[..0]) == w && out == out + AllSends(w, es[..0])
  {
  }

  lemma LoopGoesOn(w: World, es: seq<Ready>, i: nat, out: seq<Output>)
    requires WorldShape(w) && i < |es| && AllSound(w, es)
    ensures AllSound(w, es[..i]) && AllSound(w, es[..i + 1]) && Sound(ServedAll(w, es[..i]), es[i])
    ensures ServedAll(w, es[..i + 1]) == Served(ServedAll(w, es[..i]), es[i])
    ensures out + AllSends(w, es[..i + 1]) == out + AllSends(w, es[..i]) + Sends(ServedAll(w, es[..i]), es[i])
  {
    hide Served, Sends, Sound, Shape;
    SoundSoFar(w, es, i + 1);
    assert es[..i + 1][..i] == es[..i];
  }

  lemma {:induction false} SoundSoFar(w: World, es: seq<Ready>, n: nat)
    requires WorldShape(w) && n <= |es| && AllSound(w, es)
    ensures AllSound(w, es[..n])
    decreases |es|
  {
    hide Served, Sound, Shape;
    if n < |es| {
      SoundSoFar(w, es[..|es| - 1], n);
      assert es[..|es| - 1][..n] == es[..n];
    } else {
      assert es[..n] == es;
    }
  }

  // Requests that are answered with nothing.
  lemma DefineIsSilent(s: State, id: Id, flags: Flags, data: Option<seq<byte>>, size: nat)
    requires Shape(s)
    requires data.Some? ==> |data.value| >= DefinedSize(flags, size)
    ensures Defined(s, id, flags, data, size).out == []
  {
  }

  lemma HookIsSilent(s: State, id: Id, force: bool, callback: nat)
    requires Shape(s)
    ensures Hooked(s, id, force, callback).out == [] && Unhooked(s, id).out == []
  {
  }

  lemma UnsubscribeIsSilent(s: State, c: ClientIx, id: Id)
    requires Shape(s)
    ensures Unsubscribed(s, c, id).out == []
  {
  }

  lemma UndefineIsSilent(s: State, id: Id)
    requires Shape(s)
    ensures Undefined(s, id).s == FreeSlot(s, id) && Undefined(s, id).out == []
  {
  }

  lemma AnnounceIsSilent(s: State, c: ClientIx, id: Id, port: U16, flags: U32)
    requires Shape(s)
    ensures Announced(s, c, id, port, flags).out == []
  {
  }

  // The dispatch, packet by packet.
  lemma DispatchNext(t: State, c: ClientIx, all: seq<Arrival>, i: nat, out: seq<Output>)
    requires Shape(t) && i < |all| && AllBounded(all[i..])
    ensures Bounded(all[i].req) && AllBounded(all[i + 1..])
    ensures var p := Processed(t, c, all[i].req, all[i].now);
            var rest := Dispatched(p.s, c, all[i + 1..]);
      && Dispatched(t, c, all[i..]).s == rest.s
      && out + Dispatched(t, c, all[i..]).out == out + p.out + rest.out
  {
    assert all[i..][0] == all[i] && all[i..][1..] == all[i + 1..];
    hide Processed;
  }

  lemma DispatchedNone(t: State, c: ClientIx, none: seq<Arrival>, out: seq<Output>)
    requires Shape(t) && none == []
    ensures Dispatched(t, c, none).s == t
    ensures out + Dispatched(t, c, none).out == out
  {
  }

  // The walk over the consumer slots, slot by slot.
  lemma FanNobody(s: State, consumers: seq<Option<ClientIx>>, skip: Option<ClientIx>, msg: Message)
    requires Shape(s)
    ensures Fan(s, consumers[..0], skip, msg) == []
  {
  }

  lemma FanNext(s: State, consumers: seq<Option<ClientIx>>, j: nat, skip: Option<ClientIx>, msg: Message,
      out: seq<Output>)
    requires Shape(s) && j < |consumers|
    ensures var x := consumers[j];
      out + Fan(s, consumers[..j + 1], skip, msg)
      == if x.None? || x == skip then out + Fan(s, consumers[..j], skip, msg)
         else out + Fan(s, consumers[..j], skip, msg) + Emit(s, x.value, msg)
  {
    assert consumers[..j + 1][..j] == consumers[..j];
    hide Emit;
  }
}
