// What the broker says: the answer to every request, in terms of the tables
// alone, and through whole reads and loops.
module BrokerAnswers {
  import opened Bytes
  import opened Headers
  import opened ListPaging
  import opened SyncClock
  import opened Broker
  import opened BrokerInvariant
  import opened BrokerTable
  import opened BrokerRuns
  import opened BrokerCounting
  import opened BrokerChannels
  import opened BrokerLiveness
  import opened BrokerReads

  // ------------------------------------------------------------------- lists

  // The second list tells of the used elements of the first, one by one and
  // in their order.
  predicate Tells<A, B>(xs: seq<A>, infos: seq<B>, used: A -> bool, tells: (A, B) -> bool) {
    if xs == [] then infos == []
    else if used(xs[0]) then infos != [] && tells(xs[0], infos[0]) && Tells(xs[1..], infos[1..], used, tells)
    else Tells(xs[1..], infos, used, tells)
  }

  lemma {:induction false} UsedTells<A, B>(xs: seq<A>, slots: seq<Option<B>>, used: A -> bool, tells: (A, B) -> bool)
    requires |slots| == |xs|
    requires forall i | 0 <= i < |xs| ::
               (used(xs[i]) <==> slots[i].Some?) && (slots[i].Some? ==> tells(xs[i], slots[i].value))
    ensures Tells(xs, Used(slots), used, tells)
    decreases |xs|
  {
    if xs == [] {
    } else {
      assert forall i | 0 <= i < |xs| - 1 :: xs[1..][i] == xs[i + 1] && slots[1..][i] == slots[i + 1];
      UsedTells(xs[1..], slots[1..], used, tells);
      if used(xs[0]) {
        assert Used(slots)[1..] == Used(slots[1..]);
      } else {
        assert Used(slots) == Used(slots[1..]);
      }
    }
  }

  predicate OfEvent(e: Event, info: EventInfo) {
    && info.id == e.id && info.vartype == e.vartype && info.size == e.size <= |e.data|
    && info.short == e.data[..if e.size < 32 then e.size else 32]
    && info.count == e.count && info.consumersCount == |Subs(e)| && info.producersCount == e.producersCount
  }

  predicate Connected(x: Client) {
    x.socket != -1
  }

  predicate OfClient(x: Client, info: ClientInfo) {
    info.id == x.id && info.subscribed == x.subscribed && info.ip == x.addr.ip
  }

  predicate OfChannel(ch: Channel, info: ChannelInfo) {
    && info.id == ch.id && info.announced == ch.announced && info.requested == ch.requested
    && info.ip == ch.ip && info.port == ch.port
  }

  // Full pages and a last one that is not full, numbered from 0, with the
  // number of their records and only the last one marked.
  predicate Filled<T>(pages: seq<Page<T>>, capacity: nat) {
    forall k | 0 <= k < |pages| ::
      if k < |pages| - 1 then |pages[k].items| == capacity else |pages[k].items| < capacity
  }

  predicate Paged<T>(pages: seq<Page<T>>, capacity: nat, announced: byte, sequence: byte) {
    && pages != [] && Filled(pages, capacity)
    && forall k | 0 <= k < |pages| ::
        && pages[k].index == k % 256 && pages[k].announced == announced && pages[k].sequence == sequence
        && pages[k].count == |pages[k].items| && (pages[k].end <==> k == |pages| - 1)
  }

  lemma {:induction false} PagesFull<T>(items: seq<T>, capacity: nat, announced: byte, sequence: byte, index: nat)
    requires 0 < capacity < 256
    ensures Filled(Pages(items, capacity, announced, sequence, index), capacity)
    decreases |items|
  {
    if |items| < capacity {
    } else {
      PagesFull(items[capacity..], capacity, announced, sequence, index + 1);
      var pages := Pages(items, capacity, announced, sequence, index);
      assert forall k | 1 <= k < |pages| ::
          pages[k] == Pages(items[capacity..], capacity, announced, sequence, index + 1)[k - 1];
    }
  }

  lemma ResponsePaged<T>(slots: seq<Option<T>>, capacity: nat, total: nat, sequence: byte)
    requires 0 < capacity < 256
    ensures var pages := Response(slots, capacity, total, sequence);
      Paged(pages, capacity, (total / capacity + 1) % 256, sequence) && Contents(pages) == Used(slots)
  {
    hide Paged, Numbered, Pages, Contents, Used, Filled;
    var announced := (total / capacity + 1) % 256;
    ResponseShape(slots, capacity, total, sequence);
    PagesFull(Used(slots), capacity, announced, sequence, 0);
    NumberedPaged(Response(slots, capacity, total, sequence), capacity, announced, sequence);
  }

  lemma NumberedPaged<T>(pages: seq<Page<T>>, capacity: nat, announced: byte, sequence: byte)
    requires Numbered(pages, announced, sequence, 0) && Filled(pages, capacity)
    ensures Paged(pages, capacity, announced, sequence)
  {
  }

  ghost predicate EventsSent(s: State, c: ClientIx, sequence: byte, pages: seq<Page<EventInfo>>, out: seq<Output>) {
    && |out| == |pages| && (forall k | 0 <= k < |out| :: out[k] == Sent(c, EventPage(pages[k])))
    && Paged(pages, 5, (s.eventCount / 5 + 1) % 256, sequence)
    && Tells(s.events, Contents(pages), Active, OfEvent)
  }

  ghost predicate ClientsSent(s: State, c: ClientIx, sequence: byte, pages: seq<Page<ClientInfo>>, out: seq<Output>) {
    && |out| == |pages| && (forall k | 0 <= k < |out| :: out[k] == Sent(c, ClientPage(pages[k])))
    && Paged(pages, 9, (s.clientCount / 9 + 1) % 256, sequence)
    && Tells(s.clients, Contents(pages), Connected, OfClient)
  }

  ghost predicate ChannelsSent(s: State, c: ClientIx, sequence: byte, pages: seq<Page<ChannelInfo>>,
                               out: seq<Output>)
  {
    && |out| == |pages| && (forall k | 0 <= k < |out| :: out[k] == Sent(c, ChannelPage(pages[k])))
    && Paged(pages, 11, (s.channelCount / 11 + 1) % 256, sequence)
    && Tells(s.channels, Contents(pages), Open, OfChannel)
  }

  // ----------------------------------------------------------------- answers

  // A write that is taken: the hook first, then one event to every subscriber,
  // but to the writer only when it asked for an echo. Any other is not
  // answered.
  ghost predicate WriteTold(s: State, c: ClientIx, id: Id, flags: Flags, data: seq<byte>, now: Time, out: seq<Output>)
    requires Shape(s)
  {
    var m := Abs(s);
    if !(if id in m then m[id].vartype == flags.vartype else flags.force && |m| < 256) then out == []
    else
      var subs, hook := if id in m then m[id].subs else {}, if id in m then m[id].callback else None;
      var note := Notify(id, flags.vartype, if flags.sync then Some(Stamp(now, s.offset)) else None, data);
      && multiset(out) == (if hook.Some? then multiset{Called(hook.value, id, data)} else multiset{})
                          + multiset(set d: ClientIx | d < 64 && d in subs && (d != c || flags.echo) :: Sent(d, note))
      && (hook.Some? ==> out != [] && out[0] == Called(hook.value, id, data))
  }

  // What is sent when a live client asks.
  ghost predicate Answered(s: State, c: ClientIx, req: Request, now: Time, out: seq<Output>)
    requires Shape(s)
  {
    var m := Abs(s);
    match req
    case Read(id) =>
      out == [Sent(c, if id in m then ReadReply(id, m[id].vartype, Value(m[id])) else ReadReply(id, 0, []))]
    case Subscribe(id, flags, presented) =>
      out == if && id in m && presented < m[id].stamp
                && (m[id].vartype == flags.vartype || m[id].vartype == 0xf || flags.vartype == 0xf)
             then [Sent(c, Resend(id, Value(m[id])))] else []
    case Write(id, flags, data) => WriteTold(s, c, id, flags, data, now, out)
    case Hello(_, major, _) => out == [Sent(c, Status(if major == 2 then 0 else 1))]
    case TicketRequest(id) =>
      var o := OffersIn(s);
      out == if id in o then [Sent(c, Ticket(id, o[id].ip, o[id].port, o[id].flags))] else []
    case EventList(sequence) => exists pages :: EventsSent(s, c, sequence, pages, out)
    case ClientList(sequence) => exists pages :: ClientsSent(s, c, sequence, pages, out)
    case ChannelList(sequence) => exists pages :: ChannelsSent(s, c, sequence, pages, out)
    case _ => out == []
  }

  lemma EventListAnswer(s: State, c: ClientIx, sequence: byte, now: Time)
    requires Inv(s) && Live(s, c)
    ensures Answered(s, c, EventList(sequence), now, Processed(s, c, EventList(sequence), now).out)
  {
    hide EventsOk, OnlyLive, Counted, UniqueChannels, UniqueAddrs, SocketsOk, Abs, OffersIn, Used, Contents, EmitAll;
    hide Response, Paged, Subs;
    var slots := EventRecords(s);
    var pages := Response(slots, EVENTS_PER_PAGE, s.eventCount, sequence);
    forall i | 0 <= i < EVENTS && Active(s.events[i]) ensures OfEvent(s.events[i], slots[i].value) {
      EventTruthful(s, i);
    }
    UsedTells(s.events, slots, Active, OfEvent);
    ResponsePaged(slots, EVENTS_PER_PAGE, s.eventCount, sequence);
    EmitAllLive(s, c, EventPages(pages));
    assert EventsSent(s, c, sequence, pages, Processed(s, c, EventList(sequence), now).out);
  }

  lemma ClientListAnswer(s: State, c: ClientIx, sequence: byte, now: Time)
    requires Inv(s) && Live(s, c)
    ensures Answered(s, c, ClientList(sequence), now, Processed(s, c, ClientList(sequence), now).out)
  {
    hide EventsOk, OnlyLive, Counted, UniqueChannels, UniqueAddrs, SocketsOk, Abs, OffersIn, Used, Contents, EmitAll;
    hide Response, Paged;
    var slots := ClientRecords(s);
    var pages := Response(slots, CLIENTS_PER_PAGE, s.clientCount, sequence);
    UsedTells(s.clients, slots, Connected, OfClient);
    ResponsePaged(slots, CLIENTS_PER_PAGE, s.clientCount, sequence);
    EmitAllLive(s, c, ClientPages(pages));
    assert ClientsSent(s, c, sequence, pages, Processed(s, c, ClientList(sequence), now).out);
  }

  lemma ChannelListAnswer(s: State, c: ClientIx, sequence: byte, now: Time)
    requires Inv(s) && Live(s, c)
    ensures Answered(s, c, ChannelList(sequence), now, Processed(s, c, ChannelList(sequence), now).out)
  {
    hide EventsOk, OnlyLive, Counted, UniqueChannels, UniqueAddrs, SocketsOk, Abs, OffersIn, Used, Contents, EmitAll;
    hide Response, Paged;
    var slots := ChannelRecords(s);
    var pages := Response(slots, CHANNELS_PER_PAGE, s.channelCount, sequence);
    UsedTells(s.channels, slots, Open, OfChannel);
    ResponsePaged(slots, CHANNELS_PER_PAGE, s.channelCount, sequence);
    EmitAllLive(s, c, ChannelPages(pages));
    assert ChannelsSent(s, c, sequence, pages, Processed(s, c, ChannelList(sequence), now).out);
  }

  lemma HookFirst(s: State, c: ClientIx, id: Id, flags: Flags, data: seq<byte>, now: Time)
    requires Inv(s) && Named(id) && |data| <= DATA_SIZE && id in Abs(s)
    requires WriteAccepted(Abs(s), id, flags) && Abs(s)[id].callback.Some?
    ensures var out := Written(s, c, id, flags, data, now).out;
      out != [] && out[0] == Called(Abs(s)[id].callback.value, id, data)
  {
    hide EventsOk, OnlyLive, Counted, UniqueChannels, UniqueAddrs, SocketsOk, Abs, SendEvent;
    Lookup(s, id);
  }

  lemma WriteAnswer(s: State, c: ClientIx, id: Id, flags: Flags, data: seq<byte>, now: Time)
    requires Inv(s) && Named(id) && |data| <= DATA_SIZE
    ensures WriteTold(s, c, id, flags, data, now, Written(s, c, id, flags, data, now).out)
  {
    hide EventsOk, OnlyLive, Counted, UniqueChannels, UniqueAddrs, SocketsOk, Abs, Written, Junk, Stamp, Value;
    WriteRefines(s, c, id, flags, data, now);
    var m := Abs(s);
    if WriteAccepted(m, id, flags) {
      var n := TWrite(m, c, id, flags, data, s.counter, Junk(s))[id];
      var subs := if id in m then m[id].subs else {};
      assert n.subs == subs && n.callback == if id in m then m[id].callback else None;
      var note := Notify(id, flags.vartype, if flags.sync then Some(Stamp(now, s.offset)) else None, data);
      SameDeliveries(subs, c, flags.echo, note);
      if n.callback.Some? {
        HookFirst(s, c, id, flags, data, now);
      }
    }
  }

  lemma SameDeliveries(subs: set<nat>, c: ClientIx, echo: bool, note: Message)
    ensures Deliveries(subs, if echo then None else Some(c), note)
         == set d: ClientIx | d < 64 && d in subs && (d != c || echo) :: Sent(d, note)
  {
  }

  lemma SubscribeAnswer(s: State, c: ClientIx, id: Id, flags: Flags, presented: Word, now: Time)
    requires Inv(s) && Live(s, c) && Named(id)
    ensures Answered(s, c, Request.Subscribe(id, flags, presented), now, Subscribed(s, c, id, flags, presented).out)
  {
    hide EventsOk, OnlyLive, Counted, UniqueChannels, UniqueAddrs, SocketsOk, Abs, Subscribed, Junk, Value, Emit;
    SubscribeRefines(s, c, id, flags, presented);
    LiveGets(s, c);
    if id in Abs(s) {
      RefusedByTypeIff(s, c, id, flags, presented);
      SameValueSubscribed(Abs(s), c, id, flags, Junk(s));
    }
  }

  lemma SameValueSubscribed(m: Table, c: ClientIx, id: Id, flags: Flags, junk: seq<byte>)
    requires id in m
    ensures var n := TSubscribe(m, c, id, flags, junk);
      id in n && Value(n[id]) == Value(m[id]) && n[id].stamp == m[id].stamp && n[id].vartype == m[id].vartype
  {
  }

  // Every request of a live client is answered so.
  lemma RequestAnswered(s: State, c: ClientIx, req: Request, now: Time)
    requires Inv(s) && Live(s, c) && Bounded(req) && NamesOk(req)
    ensures Answered(s, c, req, now, Processed(s, c, req, now).out)
  {
    hide EventsOk, OnlyLive, Counted, UniqueChannels, UniqueAddrs, SocketsOk, Abs, OffersIn, Value, WriteTold;
    match req {
      case Read(id) => ReadRefines(s, c, id);
      case Subscribe(id, flags, presented) => SubscribeAnswer(s, c, id, flags, presented, now);
      case Write(id, flags, data) => WriteAnswer(s, c, id, flags, data, now);
      case Hello(id, major, minor) => GreetRefines(s, c, id, major, minor);
      case TicketRequest(id) => TicketRefines(s, c, id);
      case EventList(sequence) => EventListAnswer(s, c, sequence, now);
      case ClientList(sequence) => ClientListAnswer(s, c, sequence, now);
      case ChannelList(sequence) => ChannelListAnswer(s, c, sequence, now);
      case Unsubscribe(id) => UnsubscribeRefines(s, c, id);
      case Define(id, flags, size) => DefineRefines(s, id, flags, None, size);
      case Undefine(id) => UndefineRefines(s, id);
      case Announce(id, port, flags) => AnnounceRefines(s, c, id, port, flags);
      case Unknown =>
    }
  }

  // ---------------------------------------------------------------- datagrams

  // The client of a datagram address, if there is one.
  predicate KnownAt(s: State, addr: Addr, c: ClientIx)
    requires Shape(s)
  {
    s.clients[c].socket == -2 && s.clients[c].addr == addr
  }

  predicate Stranger(s: State, addr: Addr)
    requires Shape(s)
  {
    forall c: ClientIx :: !KnownAt(s, addr, c)
  }

  // What is sent for a datagram: the answer to the client of its address, who
  // is found, has moved or is new; a refusal to a stranger who does not
  // introduce himself; nothing to one for whom there is no room.
  ghost predicate DatagramAnswered(s: State, addr: Addr, req: Request, now: Time, out: seq<Output>)
    requires Shape(s)
  {
    var (t, c) := ClientOfDatagram(s, addr, req);
    if c < CLIENTS then
      KnownAt(t, addr, c) && (KnownAt(s, addr, c) || Stranger(s, addr)) && Answered(t, c, req, now, out)
    else Stranger(s, addr) && out == if req.Hello? then [] else [Refused(addr, 2)]
  }

  lemma DatagramIsAnswered(s: State, addr: Addr, req: Request, now: Time)
    requires Inv(s) && Bounded(req) && NamesOk(req)
    ensures DatagramAnswered(s, addr, req, now, DatagramProcessed(s, addr, req, now).out)
    ensures (exists c: ClientIx :: KnownAt(s, addr, c)) || (req.Hello? && ClientOfDatagram(s, addr, req).1 < CLIENTS)
       <==> ClientOfDatagram(s, addr, req).1 < CLIENTS
  {
    hide EventsOk, OnlyLive, Counted, UniqueChannels, UniqueAddrs, Processed, Answered;
    DatagramClientKeepsInv(s, addr, req);
    ClientOfAddress(s, addr, req);
    var (t, c) := ClientOfDatagram(s, addr, req);
    hide ClientOfDatagram;
    if c < CLIENTS {
      assert Live(t, c);
      RequestAnswered(t, c, req, now);
    }
  }

  lemma ClientOfAddress(s: State, addr: Addr, req: Request)
    requires Shape(s)
    ensures var (t, c) := ClientOfDatagram(s, addr, req);
      && (c < CLIENTS ==> KnownAt(t, addr, c) && (KnownAt(s, addr, c) || (Stranger(s, addr) && req.Hello?)))
      && (c == CLIENTS ==> Stranger(s, addr))
  {
    var k := FindUdpAddr(s.clients, addr);
    if k == CLIENTS {
      assert Stranger(s, addr);
    }
  }

  // -------------------------------------------------------------- whole steps

  // What the server's own program makes the broker send: a write of its tells
  // every subscriber, and nothing else is heard outside.
  ghost predicate ProgramTold(s: State, x: Input, out: seq<Output>)
    requires Shape(s)
  {
    var m := Abs(s);
    if x.ServerWrite? && (x.id in m || (x.flags.force && |m| < 256)) then
      var data := x.data[..ServerSize(x.flags, x.size)];
      var note := Notify(x.id, if x.id in m then m[x.id].vartype else 0,
                         if x.flags.sync then Some(Stamp(x.now, s.offset)) else None, data);
      multiset(out) == multiset(set d: ClientIx | d < 64 && x.id in m && d in m[x.id].subs :: Sent(d, note))
    else out == []
  }

  ghost predicate StepAnswered(s: State, x: Input, out: seq<Output>)
    requires Shape(s)
  {
    match x
    case Packet(c, req, now) => Answered(s, c, req, now, out)
    case Datagram(addr, req, now) => DatagramAnswered(s, addr, req, now, out)
    case Connection(_, _) => out == []
    case Gone(_) => out == []
    case _ => ProgramTold(s, x, out)
  }

  lemma ServerWriteTells(s: State, id: Id, flags: Flags, data: seq<byte>, size: nat, now: Time)
    requires Inv(s) && Named(id) && ServerSize(flags, size) <= |data| && size <= DATA_SIZE
    ensures ProgramTold(s, Call.ServerWrite(id, flags, data, size, now),
                        WrittenByServer(s, id, flags, data, size, now).out)
  {
    hide EventsOk, OnlyLive, Counted, UniqueChannels, UniqueAddrs, SocketsOk, Abs, WrittenByServer, Junk, Stamp, Value;
    ServerWriteRefines(s, id, flags, data, size, now);
    var m := Abs(s);
    if id in m || (flags.force && |m| < EVENTS) {
      var n := TServerWrite(m, id, flags, data[..ServerSize(flags, size)], Junk(s))[id];
      var subs := if id in m then m[id].subs else {};
      assert n.subs == subs && n.vartype == if id in m then m[id].vartype else 0;
      var note := Notify(id, n.vartype, if flags.sync then Some(Stamp(now, s.offset)) else None, Value(n));
      assert Deliveries(subs, None, note)
          == set d: ClientIx | d < 64 && id in m && d in m[id].subs :: Sent(d, note);
    }
  }

  // Every step of the broker is answered so.
  lemma StepIsAnswered(s: State, x: Input)
    requires Inv(s) && Legal(s, x)
    ensures StepAnswered(s, x, Step(s, x).out)
  {
    hide EventsOk, OnlyLive, Counted, UniqueChannels, UniqueAddrs, SocketsOk, Abs, Answered, DatagramAnswered;
    hide Processed, DatagramProcessed, WrittenByServer, ProgramTold;
    match x
    case Packet(c, req, now) => RequestAnswered(s, c, req, now);
    case Datagram(addr, req, now) => DatagramIsAnswered(s, addr, req, now);
    case Connection(fd, addr) =>
    case Gone(c) =>
    case ServerWrite(id, flags, data, size, now) => ServerWriteTells(s, id, flags, data, size, now);
    case _ => QuietProgram(s, x);
  }

  lemma QuietProgram(s: State, x: Input)
    requires Shape(s) && (x.ServerDefine? || x.ServerUndefine? || x.ServerHook? || x.ServerUnhook?)
    ensures Step(s, x).out == [] && ProgramTold(s, x, [])
  {
    hide Obtain;
  }

  // ------------------------------------------------------------- whole loops

  // The answers to the packets of one read, one after another.
  ghost predicate ReadAnswered(s: State, c: ClientIx, arrivals: seq<Arrival>, out: seq<Output>)
    requires Shape(s) && AllBounded(arrivals)
    decreases |arrivals|
  {
    if arrivals == [] then out == []
    else exists k ::
      && 0 <= k <= |out| && Answered(s, c, arrivals[0].req, arrivals[0].now, out[..k])
      && ReadAnswered(Processed(s, c, arrivals[0].req, arrivals[0].now).s, c, arrivals[1..], out[k..])
  }

  lemma {:induction false} ReadIsAnswered(s: State, c: ClientIx, arrivals: seq<Arrival>)
    requires Inv(s) && Proper(arrivals) && ReachesLive(s, c, arrivals)
    ensures ReadAnswered(s, c, arrivals, Dispatched(s, c, arrivals).out)
    decreases |arrivals|
  {
    hide EventsOk, OnlyLive, Counted, UniqueChannels, UniqueAddrs, SocketsOk, Answered, Processed, Live;
    if arrivals == [] {
    } else {
      var first := Processed(s, c, arrivals[0].req, arrivals[0].now);
      RequestAnswered(s, c, arrivals[0].req, arrivals[0].now);
      ProcessKeepsInv(s, c, arrivals[0].req, arrivals[0].now);
      ReadIsAnswered(first.s, c, arrivals[1..]);
      var out := Dispatched(s, c, arrivals).out;
      assert out[..|first.out|] == first.out;
      assert out[|first.out|..] == Dispatched(first.s, c, arrivals[1..]).out;
    }
  }

  // What the server sends when it is woken.
  ghost predicate WakeAnswered(w: World, e: Ready, out: seq<Output>)
    requires WorldShape(w) && Sound(w, e)
  {
    match e
    case Readable(c, Bytes(chunk), behind, now) =>
      ReadAnswered(w.s, c, RequestsRead(w.residues[c], chunk, behind, now), out)
    case DatagramReady(addr, buffer, size, now) =>
      if size < 60 || buffer[0] != 0x53 || buffer[59] != 0x44 then out == []
      else DatagramAnswered(w.s, addr, DatagramRequest(buffer), now, out)
    case Program(x) => ProgramTold(w.s, x, out)
    case _ => out == []
  }

  lemma WakeIsAnswered(w: World, e: Ready)
    requires WorldShape(w) && Sound(w, e) && NamesProper(w, e) && OrderlyRead(w, e) && Inv(w.s)
    ensures WakeAnswered(w, e, Sends(w, e))
  {
    hide EventsOk, OnlyLive, Counted, UniqueChannels, UniqueAddrs, SocketsOk, RequestsRead, DatagramRequest;
    hide Dispatched, DatagramProcessed, DatagramAnswered, ProgramTold, Rejects, Live, ReachesLive, NamesOk;
    match e
    case Readable(c, Bytes(chunk), behind, now) =>
      var arrivals := RequestsRead(w.residues[c], chunk, behind, now);
      if chunk == [] {
        NothingArrives(w.residues[c], chunk, behind, now);
      } else {
        if arrivals != [] {
          ReachesLiveIff(w.s, c, arrivals);
        } else {
          NobodyToReach(w.s, c, arrivals);
        }
        hide ReadAnswered;
        ReadIsAnswered(w.s, c, arrivals);
      }
    case DatagramReady(addr, buffer, size, now) =>
      if size >= 60 && buffer[0] == 0x53 && buffer[59] == 0x44 {
        DatagramIsAnswered(w.s, addr, DatagramRequest(buffer), now);
      }
    case Program(x) => StepIsAnswered(w.s, x);
    case _ =>
  }

  lemma NobodyToReach(s: State, c: ClientIx, none: seq<Arrival>)
    requires Shape(s) && none == []
    ensures Proper(none) && ReachesLive(s, c, none)
  {
  }

  lemma NothingArrives(rest: seq<byte>, none: seq<byte>, behind: nat -> Tail, now: nat -> Time)
    requires none == []
    ensures RequestsRead(rest, none, behind, now) == []
  {
  }

  // All that the loop sends, wake-up after wake-up.
  ghost predicate LoopAnswered(w: World, es: seq<Ready>, out: seq<Output>)
    requires WorldShape(w) && AllSound(w, es)
  {
    if es == [] then out == []
    else exists k ::
      && 0 <= k <= |out| && LoopAnswered(w, es[..|es| - 1], out[..k])
      && WakeAnswered(ServedAll(w, es[..|es| - 1]), es[|es| - 1], out[k..])
  }

  // Whatever becomes readable, an orderly loop sends exactly the answers.
  lemma {:induction false} LoopIsAnswered(w: World, es: seq<Ready>)
    requires WorldShape(w) && AllSound(w, es) && AllProper(w, es) && Orderly(w, es) && Inv(w.s)
    ensures LoopAnswered(w, es, AllSends(w, es))
    decreases |es|
  {
    hide Served, Sends, Inputs, OrderlyRead, Inv, Shape, Sound, NamesProper, WakeAnswered, Run, LegalRun;
    if es == [] {
    } else {
      var front, e := es[..|es| - 1], es[|es| - 1];
      var v := ServedAll(w, front);
      LoopIsAnswered(w, front);
      LoopIsRun(w, front);
      RunKeepsInv(w.s, AllInputs(w, front));
      WakeIsAnswered(v, e);
      var out := AllSends(w, es);
      var k := |AllSends(w, front)|;
      assert out[..k] == AllSends(w, front) && out[k..] == Sends(v, e);
    }
  }
}
