// What single calls and wake-ups come to at the broker, from the bits of the
// caller's word to what others see.
module BrokerEffects {
  import opened Bytes
  import opened Framing
  import opened Headers
  import opened ListPaging
  import opened SyncClock
  import opened Broker
  import opened BrokerInvariant
  import opened BrokerTable
  import opened BrokerRuns
  import opened BrokerCounting
  import opened BrokerLiveness
  import opened BrokerReads
  import opened BrokerChannels
  import opened BrokerAnswers
  import opened DatagramLimits
  import Calls = ClientRequests

  // ------------------------------------------------------------- the writer

  predicate Reaches(o: Output, to: ClientIx) {
    o.Sent? && o.to == to && o.msg.Notify?
  }

  // Whose write it is hears of it exactly when the word of its call has the
  // echo bit, 0x20; every other subscriber hears of it; and what they hear has
  // a firing time exactly when the word has the bit 0x10.
  lemma WordDecidesWhoHears(h: Header, call: Calls.ClientCall, behind: Tail, s: State, c: ClientIx, now: Time)
    requires Calls.Backed(call) && Calls.Carried(call) && call.CallWrite? && Named(call.id) && Inv(s) && Live(s, c)
    requires call.id in Abs(s) && Abs(s)[call.id].vartype == call.flags / 0x100 % 0x10 && c in Abs(s)[call.id].subs
    ensures var req := RequestOf(Calls.Built(h, call), behind);
      Bounded(req) &&
      var out := Processed(s, c, req, now).out;
      && ((exists o :: o in out && Reaches(o, c)) <==> call.flags / 0x20 % 2 == 1)
      && (forall d: ClientIx | d != c ::
            (exists o :: o in out && Reaches(o, d)) <==> d in Abs(s)[call.id].subs)
      && (forall o | o in out && o.Sent? && o.msg.Notify? :: o.msg.sync.Some? <==> call.flags / 0x10 % 2 == 1)
  {
    hide Abs, Processed, RequestOf, Calls.Built, EventsOk, OnlyLive, Counted, UniqueChannels, UniqueAddrs, SocketsOk;
    hide Stamp, Live;
    Calls.ServerUnderstands(h, call, behind);
    var req := RequestOf(Calls.Built(h, call), behind);
    WordWrite(s, c, req, now, call.flags);
  }

  lemma WordWrite(s: State, c: ClientIx, req: Request, now: Time, word: U32)
    requires Inv(s) && Live(s, c) && Bounded(req) && NamesOk(req) && req.Write? && req.flags == Calls.CallerFlags(word)
    requires req.id in Abs(s) && Abs(s)[req.id].vartype == req.flags.vartype && c in Abs(s)[req.id].subs
    ensures var out := Processed(s, c, req, now).out;
      && ((exists o :: o in out && Reaches(o, c)) <==> word / 0x20 % 2 == 1)
      && (forall d: ClientIx | d != c ::
            (exists o :: o in out && Reaches(o, d)) <==> d in Abs(s)[req.id].subs)
      && (forall o | o in out && o.Sent? && o.msg.Notify? :: o.msg.sync.Some? <==> word / 0x10 % 2 == 1)
  {
    hide Abs, Processed, EventsOk, OnlyLive, Counted, UniqueChannels, UniqueAddrs, SocketsOk, Stamp;
    RequestAnswered(s, c, req, now);
    var out := Processed(s, c, req, now).out;
    var subs, hook := Abs(s)[req.id].subs, Abs(s)[req.id].callback;
    var sync := if req.flags.sync then Some(Stamp(now, s.offset)) else None;
    var note := Notify(req.id, req.flags.vartype, sync, req.data);
    var told := set d: ClientIx | d < 64 && d in subs && (d != c || req.flags.echo) :: Sent(d, note);
    var hooked := if hook.Some? then multiset{Called(hook.value, req.id, req.data)} else multiset{};
    assert multiset(out) == hooked + multiset(told);
    forall o ensures o in out <==> o in hooked || o in told {
      assert o in out <==> o in multiset(out);
    }
    forall d: ClientIx
      ensures (exists o :: o in out && Reaches(o, d)) <==> d in subs && (d != c || req.flags.echo)
    {
      if d in subs && (d != c || req.flags.echo) {
        assert Sent(d, note) in told;
        assert Reaches(Sent(d, note), d);
      }
    }
  }

  // ------------------------------------------------------------- by datagram

  // A packet in a datagram asks for what it asks for on a connection.
  lemma DatagramIsItsPacket(p: Packet, rest: Tail)
    requires Sendable(p) && |PacketBytes(p)| + |rest| == BUFFER_SIZE
    ensures var buffer := PacketBytes(p) + rest;
      && HasMagic(buffer) && HEADER + PayloadSize(buffer) == |PacketBytes(p)|
      && DatagramRequest(buffer) == RequestOf(p, rest)
  {
    var bs := PacketBytes(p);
    var buffer := bs + rest;
    SendableIsFramed(p);
    PacketRoundTrip(p);
    hide RequestOf, HeaderOf, HeaderBytes;
    assert buffer[..|bs|] == bs && buffer[|bs|..] == rest;
    assert Masked(bs) == bs;
    assert PayloadSize(buffer) == PayloadSize(bs);
  }

  // So a client's call that travels in a datagram of its own, from an address
  // or as an introduction, reaches the broker as what it means.
  lemma CallByDatagram(w: World, addr: Addr, h: Header, call: Calls.ClientCall, rest: Tail, now: Time)
    requires WorldShape(w) && Calls.Backed(call) && Calls.Carried(call)
    requires |PacketBytes(Calls.Built(h, call))| + |rest| == BUFFER_SIZE
    ensures var buffer, size := PacketBytes(Calls.Built(h, call)) + rest, |PacketBytes(Calls.Built(h, call))|;
            var e := DatagramReady(addr, buffer, size, now);
      && Sound(w, e) && Bounded(Calls.Meant(call))
      && Served(w, e) == w.(s := DatagramProcessed(w.s, addr, Calls.Meant(call), now).s)
      && Sends(w, e) == DatagramProcessed(w.s, addr, Calls.Meant(call), now).out
  {
    hide DatagramProcessed, RequestOf, Calls.Built, Calls.Meant, PacketBytes, Shape, DatagramRequest, HasMagic;
    Calls.BuiltIsSendable(h, call);
    Calls.ServerUnderstands(h, call, rest);
    DatagramIsItsPacket(Calls.Built(h, call), rest);
    AtLeastAHeader(Calls.Built(h, call));
  }

  lemma AtLeastAHeader(p: Packet)
    ensures |PacketBytes(p)| == 60 + |p.payload|
  {
  }

  // --------------------------------------------------------------- wake-ups

  // A connection that breaks, or is closed from the other end: the client is
  // gone, off every event, and its channels with it; nobody is told, and
  // everybody else's connection and residue stay.
  lemma LostConnection(w: World, e: Ready)
    requires WorldShape(w) && Sound(w, e) && Inv(w.s) && e.Readable? && Live(w.s, e.c)
    requires e.incoming == Broken || e.incoming == Bytes([])
    ensures var v := Served(w, e);
      && Inv(v.s) && !Live(v.s, e.c) && v.residues == w.residues && Sends(w, e) == []
      && Abs(v.s) == TLeave(Abs(w.s), e.c) && OffersIn(v.s) == TDepart(OffersIn(w.s), e.c)
      && (forall d: ClientIx | d != e.c :: Live(v.s, d) <==> Live(w.s, d))
  {
    hide EventsOk, OnlyLive, Counted, UniqueChannels, UniqueAddrs, SocketsOk, Abs, OffersIn, CloseClient;
    CloseRefines(w.s, e.c);
    DepartRefines(w.s, e.c);
    CloseDrift(w.s, e.c);
    assert e.incoming == Broken ==> Served(w, e) == w.(s := CloseClient(w.s, e.c));
  }

  // Nothing to read now changes nothing.
  lemma NothingToRead(w: World, e: Ready)
    requires WorldShape(w) && Sound(w, e) && e.Readable? && e.incoming == TryAgain
    ensures Served(w, e) == w && Sends(w, e) == []
  {
  }

  // A connection takes the first free slot, with its descriptor and address
  // and no subscription; without a free slot it is turned away.
  lemma NewConnection(w: World, fd: nat, addr: Addr)
    requires WorldShape(w)
    ensures var v := Served(w, Connecting(fd, addr));
      if exists c: ClientIx :: !Live(w.s, c) then
        exists c: ClientIx ::
          && !Live(w.s, c) && (forall d: ClientIx | d < c :: Live(w.s, d))
          && v.s.clients == w.s.clients[c := w.s.clients[c].(socket := fd, addr := addr, subscribed := 0)]
          && v.s == w.s.(clients := v.s.clients, clientCount := (w.s.clientCount + 1) % 0x1_0000_0000)
      else v == w
  {
    var c := FreeClient(w.s.clients);
    if c < CLIENTS {
      assert !Live(w.s, c);
    }
  }

  // A datagram client is found by its address; a stranger that introduces
  // himself by a name that a datagram client has is that client, at a new
  // address; and any other gets a free slot.
  lemma DatagramClient(s: State, addr: Addr, req: Request)
    requires Shape(s)
    ensures var (t, c) := ClientOfDatagram(s, addr, req);
      if (exists d: ClientIx :: KnownAt(s, addr, d)) || !req.Hello? then t == s && (c < CLIENTS ==> KnownAt(s, addr, c))
      else if exists d: ClientIx :: s.clients[d].socket == -2 && s.clients[d].id == req.id then
        && c < CLIENTS && s.clients[c].socket == -2 && s.clients[c].id == req.id
        && t == s.(clients := s.clients[c := s.clients[c].(addr := addr)])
      else if exists d: ClientIx :: !Live(s, d) then
        && c < CLIENTS && !Live(s, c)
        && t.clients == s.clients[c := s.clients[c].(socket := -2, addr := addr, subscribed := 0)]
        && t == s.(clients := t.clients, clientCount := (s.clientCount + 1) % 0x1_0000_0000)
      else t == s && c == CLIENTS
  {
    var k, i := FindUdpAddr(s.clients, addr), FindUdpId(s.clients, if req.Hello? then req.id else Id(0, 0, 0, 0));
    if k == CLIENTS {
      assert forall d: ClientIx :: !KnownAt(s, addr, d);
    } else {
      assert KnownAt(s, addr, k);
    }
    var free := FreeClient(s.clients);
    if free < CLIENTS {
      assert !Live(s, free);
    }
  }

  // An introduction leaves its name and version with the client, and with
  // nobody else.
  lemma IntroductionIsKept(s: State, c: ClientIx, id: Id, major: U32, minor: U32, now: Time)
    requires Shape(s)
    ensures var t := Processed(s, c, Hello(id, major, minor), now).s;
      && t.clients[c].id == id && t.clients[c].version == major % 0x100 * 0x100 + minor % 0x100
      && t.clients[c].addr == s.clients[c].addr
      && (t.clients[c].socket == if major == 2 then s.clients[c].socket else -1)
      && forall d: ClientIx | d != c :: t.clients[d] == s.clients[d]
  {
    hide RemoveFromEvents;
    LeavingTouchesOne(s, c, EVENTS);
  }

  lemma {:induction false} LeavingTouchesOne(s: State, c: ClientIx, n: nat)
    requires Shape(s) && n <= EVENTS
    ensures var t := RemoveFromEvents(s, c, n);
      && t.clients[c] == s.clients[c].(subscribed := t.clients[c].subscribed)
      && forall d: ClientIx | d != c :: t.clients[d] == s.clients[d]
  {
    if n == 0 {
    } else {
      LeavingTouchesOne(s, c, n - 1);
    }
  }

  // A client that is gone is not answered.
  lemma TheGoneHearNothing(s: State, c: ClientIx, req: Request, now: Time)
    requires Inv(s) && !Live(s, c) && Bounded(req) && !req.Write?
    ensures Processed(s, c, req, now).out == []
  {
    hide EventsOk, OnlyLive, Counted, UniqueChannels, UniqueAddrs, SocketsOk, Obtain, AddConsumer, EmitAll, Response;
    assert s.clients[c].socket == -1;
    match req
    case Subscribe(id, flags, presented) => SubscribeSameSocket(s, c, id, flags, presented);
    case EventList(sequence) =>
      NothingToTheGone(s, c, EventPages(Response(EventRecords(s), EVENTS_PER_PAGE, s.eventCount, sequence)));
    case ClientList(sequence) =>
      NothingToTheGone(s, c, ClientPages(Response(ClientRecords(s), CLIENTS_PER_PAGE, s.clientCount, sequence)));
    case ChannelList(sequence) =>
      NothingToTheGone(s, c, ChannelPages(Response(ChannelRecords(s), CHANNELS_PER_PAGE, s.channelCount, sequence)));
    case _ =>
  }

  lemma {:induction false} NothingToTheGone(s: State, c: ClientIx, msgs: seq<Message>)
    requires Shape(s) && s.clients[c].socket == -1
    ensures EmitAll(s, c, msgs) == []
    decreases |msgs|
  {
    hide Shape;
    if msgs == [] {
    } else {
      NothingToTheGone(s, c, msgs[1..]);
    }
  }

  lemma SubscribeSameSocket(s: State, c: ClientIx, id: Id, flags: Flags, presented: Word)
    requires Shape(s) && s.clients[c].socket == -1
    ensures Subscribed(s, c, id, flags, presented).out == []
  {
  }

  // ------------------------------------------------------------- the offset

  lemma {:induction false} LeavingKeepsOffset(s: State, c: ClientIx, n: nat)
    requires Shape(s) && n <= EVENTS
    ensures RemoveFromEvents(s, c, n).offset == s.offset
  {
    if n == 0 {
    } else {
      LeavingKeepsOffset(s, c, n - 1);
    }
  }

  lemma RequestKeepsOffset(s: State, c: ClientIx, req: Request, now: Time)
    requires Shape(s) && Bounded(req)
    ensures Processed(s, c, req, now).s.offset == s.offset
  {
    LeavingKeepsOffset(s, c, EVENTS);
    hide RemoveFromEvents, Emit, EmitAll, SendEvent, Stored;
  }

  lemma StepKeepsOffset(s: State, x: Input)
    requires Shape(s)
    ensures Step(s, x).s.offset == s.offset
  {
    hide Processed, SendEvent;
    match x
    case Packet(c, req, now) => RequestKeepsOffset(s, c, req, now);
    case Datagram(addr, req, now) =>
      var (t, c) := ClientOfDatagram(s, addr, req);
      if c < CLIENTS {
        RequestKeepsOffset(t, c, req, now);
      }
    case Gone(c) =>
      LeavingKeepsOffset(s, c, EVENTS);
      hide RemoveFromEvents;
    case _ =>
  }

  // Over every run, the offset of the firing times is that of a new server.
  lemma {:induction false} OffsetStays(s: State, xs: seq<Input>)
    requires Initial(s)
    ensures Run(s, xs).offset == 300
  {
    hide Step;
    if xs == [] {
    } else {
      OffsetStays(s, xs[..|xs| - 1]);
      StepKeepsOffset(Run(s, xs[..|xs| - 1]), xs[|xs| - 1]);
    }
  }

  // -------------------------------------------------------- the result codes

  // What the server's program is told: -1 and -2 for an event that is not
  // there or cannot be made, and for a definition the other way round; a
  // definition of more than 511 bytes is not tried.
  lemma ProgramIsTold(s: State, x: Input)
    requires Inv(s)
    ensures var m, code := Abs(s), Step(s, x).code;
      && (x.ServerWrite? ==>
            code == if x.id in m || (x.flags.force && |m| < 256) then 0 else if x.flags.force then -2 else -1)
      && (x.ServerHook? ==> code == if x.id in m || (x.force && |m| < 256) then 0 else if x.force then -2 else -1)
      && (x.ServerDefine? ==>
            code == if x.size > 511 then -5 else if x.id in m then if x.flags.force then 0 else -2
                    else if |m| < 256 then 0 else -1)
      && (x.ServerDefine? && x.size > 511 ==> Step(s, x).s == s)
  {
    hide EventsOk, OnlyLive, Counted, UniqueChannels, UniqueAddrs, SocketsOk, Abs, SendEvent, Obtain;
    if x.ServerWrite? || x.ServerHook? || x.ServerDefine? {
      Lookup(s, x.id);
      CapacityAndCount(s);
    }
    match x
    case ServerWrite(id, flags, data, size, now) => ObtainRefines(s, id, flags.force, VAR_UNDEFINED);
    case ServerHook(id, force, callback) => ObtainRefines(s, id, force, VAR_UNDEFINED);
    case ServerDefine(id, flags, value, size) => ObtainRefines(s, id, true, VAR_UNDEFINED);
    case _ =>
  }
}
