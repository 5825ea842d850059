// Whole runs of the broker: any sequence of packets, datagrams, connections,
// disconnections and calls of the server's own program.
module BrokerRuns {
  import opened Bytes
  import opened Headers
  import opened SyncClock
  import opened Broker
  import opened BrokerInvariant
  import opened BrokerTable

  datatype Call =
    | Packet(c: ClientIx, req: Request, now: Time)
    | Datagram(addr: Addr, req: Request, now: Time)
    | Connection(fd: nat, addr: Addr)
    | Gone(c: ClientIx)
    | ServerWrite(id: Id, flags: Flags, data: seq<byte>, size: nat, now: Time)
    | ServerDefine(id: Id, flags: Flags, value: Option<seq<byte>>, size: nat)
    | ServerUndefine(id: Id)
    | ServerHook(id: Id, force: bool, callback: nat)
    | ServerUnhook(id: Id)

  // What callers must see to: sizes within the buffers, and no identifier
  // that is the free-slot marker.
  predicate WellFormed(x: Call) {
    match x
    case Packet(_, req, _) => Bounded(req) && NamesOk(req)
    case Datagram(_, req, _) => Bounded(req) && NamesOk(req)
    case Connection(_, _) => true
    case Gone(_) => true
    case ServerWrite(id, flags, data, size, _) => Named(id) && ServerSize(flags, size) <= |data| && size <= DATA_SIZE
    case ServerDefine(id, flags, value, size) => Named(id)
        && (value.Some? ==> |value.value| >= DefinedSize(flags, size))
    case ServerUndefine(id) => Named(id)
    case ServerHook(id, _, _) => Named(id)
    case ServerUnhook(id) => Named(id)
  }

  type Input = x: Call | WellFormed(x) witness Gone(0)

  // And packets come from, and connections end for, live clients.
  predicate Legal(s: State, x: Input)
    requires Shape(s)
  {
    x.Packet? || x.Gone? ==> Live(s, x.c)
  }

  function Step(s: State, x: Input): (r: Result)
    requires Shape(s)
    ensures Shape(r.s)
  {
    match x
    case Packet(c, req, now) => Processed(s, c, req, now)
    case Datagram(addr, req, now) => DatagramProcessed(s, addr, req, now)
    case Connection(fd, addr) => Accepted(s, fd, addr)
    case Gone(c) => Result(CloseClient(s, c), [], 0)
    case ServerWrite(id, flags, data, size, now) => WrittenByServer(s, id, flags, data, size, now)
    case ServerDefine(id, flags, value, size) =>
      if size > DATA_SIZE then Result(s, [], -5) else Defined(s, id, flags, value, size)
    case ServerUndefine(id) => Undefined(s, id)
    case ServerHook(id, force, callback) => Hooked(s, id, force, callback)
    case ServerUnhook(id) => Unhooked(s, id)
  }

  function Run(s: State, xs: seq<Input>): (t: State)
    requires Shape(s)
    ensures Shape(t)
  {
    if xs == [] then s else Step(Run(s, xs[..|xs| - 1]), xs[|xs| - 1]).s
  }

  predicate LegalRun(s: State, xs: seq<Input>)
    requires Shape(s)
  {
    xs == [] || (LegalRun(s, xs[..|xs| - 1]) && Legal(Run(s, xs[..|xs| - 1]), xs[|xs| - 1]))
  }

  lemma DatagramKeepsInv(s: State, addr: Addr, req: Request, now: Time)
    requires Inv(s) && Bounded(req) && NamesOk(req)
    ensures Inv(DatagramProcessed(s, addr, req, now).s)
  {
    hide EventsOk, OnlyLive, Counted, UniqueChannels, UniqueAddrs, Processed, ClientOfDatagram;
    DatagramClientKeepsInv(s, addr, req);
    var (t, c) := ClientOfDatagram(s, addr, req);
    if c < CLIENTS {
      ProcessKeepsInv(t, c, req, now);
    }
  }

  lemma StepKeepsInv(s: State, x: Input)
    requires Inv(s) && Legal(s, x)
    ensures Inv(Step(s, x).s)
  {
    hide EventsOk, OnlyLive, Counted, UniqueChannels, UniqueAddrs, Processed, DatagramProcessed, Accepted, CloseClient;
    hide WrittenByServer, Defined, Undefined, Hooked, Unhooked;
    match x
    case Packet(c, req, now) => ProcessKeepsInv(s, c, req, now);
    case Datagram(addr, req, now) => DatagramKeepsInv(s, addr, req, now);
    case Connection(fd, addr) => AcceptKeepsInv(s, fd, addr);
    case Gone(c) => CloseKeepsInv(s, c);
    case ServerWrite(id, flags, data, size, now) => ServerWriteKeepsInv(s, id, flags, data, size, now);
    case ServerDefine(id, flags, value, size) => DefineKeepsInv(s, id, flags, value, size);
    case ServerUndefine(id) => UndefineKeepsInv(s, id);
    case ServerHook(id, force, callback) => HookKeepsInv(s, id, force, callback);
    case ServerUnhook(id) => HookKeepsInv(s, id, false, 0);
  }

  // Every reachable state of the server satisfies the invariant.
  lemma {:induction false} RunKeepsInv(s: State, xs: seq<Input>)
    requires Inv(s) && LegalRun(s, xs)
    ensures Inv(Run(s, xs))
  {
    hide EventsOk, OnlyLive, Counted, UniqueChannels, UniqueAddrs, Step;
    if xs == [] {
    } else {
      var front := xs[..|xs| - 1];
      RunKeepsInv(s, front);
      StepKeepsInv(Run(s, front), xs[|xs| - 1]);
    }
  }

  // ------------------------------------------------- the table over a step

  // What a client's request does to the table.
  function TRequest(m: Table, c: ClientIx, req: Request, counter: Word, junk: seq<byte>): Table {
    match req
    case Subscribe(id, flags, _) => TSubscribe(m, c, id, flags, junk)
    case Unsubscribe(id) => TUnsubscribe(m, c, id)
    case Define(id, flags, size) => TDefine(m, id, flags, None, size, junk)
    case Undefine(id) => m - {id}
    case Write(id, flags, data) => TWrite(m, c, id, flags, data, counter, junk)
    case Hello(_, major, _) => if major == MAJOR then m else TLeave(m, c)
    case _ => m
  }

  // The client that an input speaks for, if there is one.
  function Sender(s: State, x: Input): Option<ClientIx>
    requires Shape(s)
  {
    match x
    case Packet(c, _, _) => Some(c)
    case Datagram(addr, req, _) =>
      var c := ClientOfDatagram(s, addr, req).1;
      if c < CLIENTS then Some(c) else None
    case _ => None
  }

  function TStep(m: Table, sender: Option<ClientIx>, x: Input, counter: Word, junk: seq<byte>): Table {
    match x
    case Packet(_, req, _) => if sender.Some? then TRequest(m, sender.value, req, counter, junk) else m
    case Datagram(_, req, _) => if sender.Some? then TRequest(m, sender.value, req, counter, junk) else m
    case Connection(_, _) => m
    case Gone(c) => TLeave(m, c)
    case ServerWrite(id, flags, data, size, _) => TServerWrite(m, id, flags, data[..ServerSize(flags, size)], junk)
    case ServerDefine(id, flags, value, size) => if size > 511 then m else TDefine(m, id, flags, value, size, junk)
    case ServerUndefine(id) => m - {id}
    case ServerHook(id, force, callback) => THook(m, id, force, callback, junk)
    case ServerUnhook(id) => TUnhook(m, id)
  }

  // An accepted client write, of which the stamps count.
  predicate Stamps(m: Table, sender: Option<ClientIx>, x: Input) {
    && sender.Some? && (x.Packet? || x.Datagram?)
    && x.req.Write? && WriteAccepted(m, x.req.id, x.req.flags)
  }

  lemma RequestRefines(s: State, c: ClientIx, req: Request, now: Time)
    requires Inv(s) && Live(s, c) && Bounded(req) && NamesOk(req)
    ensures var r := Processed(s, c, req, now);
      && Inv(r.s)
      && Abs(r.s) == TRequest(Abs(s), c, req, s.counter, Junk(s))
      && r.s.counter == if req.Write? && WriteAccepted(Abs(s), req.id, req.flags)
                        then (s.counter + 1) % 0x1_0000_0000_0000_0000 else s.counter
  {
    hide EventsOk, OnlyLive, Counted, UniqueChannels, UniqueAddrs, SocketsOk, Abs, Subscribed, Unsubscribed;
    hide Defined, Undefined;
    hide Written, Greeted, Announced, TSubscribe, TUnsubscribe, TDefine, TWrite, TLeave, Junk, WriteAccepted, EmitAll;
    ProcessKeepsInv(s, c, req, now);
    match req
    case Subscribe(id, flags, counter) => SubscribeRefines(s, c, id, flags, counter);
    case Unsubscribe(id) => UnsubscribeRefines(s, c, id);
    case Define(id, flags, size) => DefineRefines(s, id, flags, None, size);
    case Undefine(id) => UndefineRefines(s, id);
    case Write(id, flags, data) => WriteRefines(s, c, id, flags, data, now);
    case Hello(id, major, minor) => GreetRefines(s, c, id, major, minor);
    case Announce(id, port, flags) => AnnounceLeavesEvents(s, c, id, port, flags);
    case _ =>
  }

  lemma AnnounceLeavesEvents(s: State, c: ClientIx, id: Id, port: U16, flags: U32)
    requires Shape(s)
    ensures var t := Announced(s, c, id, port, flags).s; Abs(t) == Abs(s) && t.counter == s.counter
  {
    SameEventsSameTable(s, Announced(s, c, id, port, flags).s);
  }

  // Refinement: every step of the slot arrays is the table's step. The slots
  // show through only in the stale bytes of a new event's buffer.
  lemma StepRefines(s: State, x: Input)
    requires Inv(s) && Legal(s, x)
    ensures var t := Step(s, x).s;
      && Inv(t)
      && Abs(t) == TStep(Abs(s), Sender(s, x), x, s.counter, Junk(s))
      && t.counter == if Stamps(Abs(s), Sender(s, x), x)
                      then (s.counter + 1) % 0x1_0000_0000_0000_0000 else s.counter
  {
    hide EventsOk, OnlyLive, Counted, UniqueChannels, UniqueAddrs, SocketsOk, Abs, Processed, Accepted;
    hide CloseClient, TRequest;
    hide WrittenByServer, Defined, Undefined, Hooked, Unhooked, ClientOfDatagram, Junk, TServerWrite, TDefine;
    hide THook, TUnhook, TLeave;
    hide WriteAccepted, Ensured;
    StepKeepsInv(s, x);
    match x
    case Packet(c, req, now) => RequestRefines(s, c, req, now);
    case Datagram(addr, req, now) =>
      DatagramClientKeepsInv(s, addr, req);
      var (t, c) := ClientOfDatagram(s, addr, req);
      SameJunk(s, t);
      if c < CLIENTS {
        RequestRefines(t, c, req, now);
      }
    case Connection(fd, addr) => AcceptLeavesEvents(s, fd, addr);
    case Gone(c) => CloseRefines(s, c);
    case ServerWrite(id, flags, data, size, now) => ServerWriteRefines(s, id, flags, data, size, now);
    case ServerDefine(id, flags, value, size) => DefineRefines(s, id, flags, value, size);
    case ServerUndefine(id) => UndefineRefines(s, id);
    case ServerHook(id, force, callback) => HookRefines(s, id, force, callback);
    case ServerUnhook(id) => UnhookRefines(s, id);
  }

  lemma SameJunk(s: State, t: State)
    requires Shape(s) && Shape(t) && t.events == s.events
    ensures Junk(t) == Junk(s) && Abs(t) == Abs(s)
  {
  }

  lemma AcceptLeavesEvents(s: State, fd: nat, addr: Addr)
    requires Shape(s)
    ensures var t := Accepted(s, fd, addr).s; Abs(t) == Abs(s) && t.counter == s.counter
  {
    SameEventsSameTable(s, Accepted(s, fd, addr).s);
  }
}
