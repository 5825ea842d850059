// Conservation: the counters that the broker keeps beside its tables.
module BrokerCounting {
  import opened Bytes
  import opened Headers
  import opened SyncClock
  import opened ListPaging
  import opened Broker
  import opened BrokerInvariant
  import opened BrokerTable
  import opened BrokerRuns

  // How far a client's own counter is above the number of active events that
  // hold it.
  function Drift(s: State, d: ClientIx): int
    requires Shape(s)
  {
    s.clients[d].subscribed - |Holding(s.events, d)|
  }

  ghost predicate SameDrift(s: State, t: State)
    requires Shape(s) && Shape(t)
  {
    forall d: ClientIx :: Drift(t, d) == Drift(s, d) && (Live(t, d) <==> Live(s, d))
  }

  lemma SameConsumersSameDrift(s: State, t: State, i: nat, e: Event)
    requires Shape(s) && Shape(t) && i < EVENTS && t.events == s.events[i := e] && t.clients == s.clients
    requires Active(s.events[i]) && e.id == s.events[i].id && e.consumers == s.events[i].consumers
    ensures SameDrift(s, t)
  {
    forall d: ClientIx ensures Holding(t.events, d) == Holding(s.events, d) {
    }
  }

  lemma ObtainDrift(s: State, id: Id, force: bool, vartype: VarType)
    requires Shape(s)
    ensures SameDrift(s, Obtain(s, id, force, vartype).s)
  {
    var o := Obtain(s, id, force, vartype);
    var k := FreeEvent(s.events);
    if o.code == 0 && FindEvent(s.events, id) == EVENTS {
      FreshIsEmpty(s.events[k], id, vartype);
      forall d: ClientIx ensures Holding(o.s.events, d) == Holding(s.events, d) {
      }
    }
  }

  // Adding and taking off a consumer move both sides together.
  lemma ConsumerDrift(s: State, t: State, i: nat, c: ClientIx)
    requires Inv(s) && Shape(t) && i < EVENTS && Active(s.events[i]) && t.events == s.events[i := t.events[i]]
    requires t.events[i].id == s.events[i].id
    requires forall d: ClientIx :: t.clients[d] == s.clients[d].(subscribed := t.clients[d].subscribed)
    requires forall d: ClientIx | d != c ::
        (d in Subs(t.events[i]) <==> d in Subs(s.events[i])) && t.clients[d].subscribed == s.clients[d].subscribed
    requires t.clients[c].subscribed == s.clients[c].subscribed
                                        + (if c in Subs(t.events[i]) then 1 else 0)
                                        - (if c in Subs(s.events[i]) then 1 else 0)
    ensures SameDrift(s, t)
  {
    forall d: ClientIx ensures Drift(t, d) == Drift(s, d) {
      HoldingChange(s, i, t.events[i], d);
    }
  }

  lemma AddDrift(s: State, i: nat, c: ClientIx)
    requires Inv(s) && i < EVENTS && Active(s.events[i]) && Live(s, c)
    ensures SameDrift(s, AddConsumer(s, i, c).0)
  {
    hide EventsOk, OnlyLive, Counted, UniqueChannels, UniqueAddrs, SocketsOk, Subs;
    AddKeepsInv(s, i, c);
    var e := s.events[i];
    InSubs(e, c);
    IndexInHas(e.consumers, Some(c));
    hide SameDrift;
    ConsumerDrift(s, AddConsumer(s, i, c).0, i, c);
  }

  lemma InSubs(e: Event, c: ClientIx)
    ensures c in Subs(e) <==> Some(c) in e.consumers
  {
  }

  lemma RemoveDrift(s: State, i: nat, c: ClientIx)
    requires Inv(s) && i < EVENTS && Active(s.events[i]) && Live(s, c)
    ensures SameDrift(s, RemoveConsumer(s, i, c))
  {
    hide EventsOk, OnlyLive, Counted, UniqueChannels, UniqueAddrs, SocketsOk, Subs;
    RemoveKeepsInv(s, i, c);
    var e := s.events[i];
    InSubs(e, c);
    IndexInHas(e.consumers, Some(c));
    hide SameDrift;
    ConsumerDrift(s, RemoveConsumer(s, i, c), i, c);
  }

  lemma {:induction false} RemoveAllDrift(s: State, c: ClientIx, n: nat)
    requires Inv(s) && Live(s, c) && n <= EVENTS
    ensures SameDrift(s, RemoveFromEvents(s, c, n))
  {
    hide EventsOk, OnlyLive, Counted, UniqueChannels, UniqueAddrs, SocketsOk, Subs, Drift, RemoveConsumer;
    if n == 0 {
    } else {
      RemoveAllDrift(s, c, n - 1);
      RemoveAllKeepsInv(s, c, n - 1);
      var t := RemoveFromEvents(s, c, n - 1);
      if Active(t.events[n - 1]) {
        RemoveDrift(t, n - 1, c);
      }
    }
  }

  lemma CloseDrift(s: State, c: ClientIx)
    requires Inv(s) && Live(s, c)
    ensures var t := CloseClient(s, c);
      forall d: ClientIx :: Drift(t, d) == Drift(s, d) && (Live(t, d) <==> Live(s, d) && d != c)
  {
    hide Inv, RemoveFromEvents;
    RemoveAllDrift(s, c, EVENTS);
  }

  // The one loss: an event that is undefined while a client is subscribed to
  // it is never taken off the client's counter.
  lemma UndefineDrift(s: State, id: Id)
    requires Inv(s) && Named(id)
    ensures var t := Undefined(s, id).s;
      forall d: ClientIx ::
        && Drift(t, d) == Drift(s, d) + (if id in Abs(s) && d in Abs(s)[id].subs then 1 else 0)
        && (Live(t, d) <==> Live(s, d))
  {
    hide EventsOk, OnlyLive, Counted, UniqueChannels, UniqueAddrs, SocketsOk;
    Lookup(s, id);
    var i := FindEvent(s.events, id);
    var t := FreeSlot(s, id);
    hide Abs;
    if i < EVENTS {
      forall d: ClientIx
        ensures Drift(t, d) == Drift(s, d) + (if d in Subs(s.events[i]) then 1 else 0)
      {
        assert Holding(t.events, d) == Holding(s.events, d) - {i};
        assert d in Subs(s.events[i]) <==> i in Holding(s.events, d);
      }
    }
  }

  lemma SubscribeDrift(s: State, c: ClientIx, id: Id, flags: Flags, presented: Word)
    requires Inv(s) && Live(s, c) && Named(id)
    ensures SameDrift(s, Subscribed(s, c, id, flags, presented).s)
  {
    hide EventsOk, OnlyLive, Counted, UniqueChannels, UniqueAddrs, SocketsOk, Subs, Drift, Obtain, AddConsumer, Active;
    ObtainDrift(s, id, flags.force, flags.vartype);
    ObtainKeepsInv(s, id, flags.force, flags.vartype);
    var o := Obtain(s, id, flags.force, flags.vartype);
    if o.code == 0 {
      NamedIsActive(o.s.events[o.slot], id);
      AddDrift(o.s, o.slot, c);
    }
  }

  lemma UnsubscribeDrift(s: State, c: ClientIx, id: Id)
    requires Inv(s) && Live(s, c) && Named(id)
    ensures SameDrift(s, Unsubscribed(s, c, id).s)
  {
    hide EventsOk, OnlyLive, Counted, UniqueChannels, UniqueAddrs, SocketsOk, Subs, Drift, RemoveConsumer;
    var i := FindEvent(s.events, id);
    if i < EVENTS {
      RemoveDrift(s, i, c);
    }
  }

  lemma DefineDrift(s: State, id: Id, flags: Flags, data: Option<seq<byte>>, size: nat)
    requires Inv(s) && Named(id)
    requires data.Some? ==> |data.value| >= DefinedSize(flags, size)
    ensures SameDrift(s, Defined(s, id, flags, data, size).s)
  {
    hide EventsOk, OnlyLive, Counted, UniqueChannels, UniqueAddrs, SocketsOk, Subs, Drift, Obtain;
    ObtainDrift(s, id, true, VAR_UNDEFINED);
    ObtainKeepsInv(s, id, true, VAR_UNDEFINED);
    var o := Obtain(s, id, true, VAR_UNDEFINED);
    var t := Defined(s, id, flags, data, size).s;
    if o.code == 0 && Defined(s, id, flags, data, size).code == 0 {
      SameConsumersSameDrift(o.s, t, o.slot, t.events[o.slot]);
    }
  }

  lemma WriteDrift(s: State, c: ClientIx, id: Id, flags: Flags, data: seq<byte>, now: Time)
    requires Inv(s) && Named(id) && |data| <= DATA_SIZE
    ensures SameDrift(s, Written(s, c, id, flags, data, now).s)
  {
    hide EventsOk, OnlyLive, Counted, UniqueChannels, UniqueAddrs, SocketsOk, Subs, Drift, Obtain, SendEvent;
    ObtainDrift(s, id, flags.force, flags.vartype);
    ObtainKeepsInv(s, id, flags.force, flags.vartype);
    var o := Obtain(s, id, flags.force, flags.vartype);
    var t := Written(s, c, id, flags, data, now).s;
    if Written(s, c, id, flags, data, now).code == 0 {
      SameConsumersSameDrift(o.s, t, o.slot, t.events[o.slot]);
    }
  }

  lemma ServerWriteDrift(s: State, id: Id, flags: Flags, data: seq<byte>, size: nat, now: Time)
    requires Inv(s) && Named(id)
    requires ServerSize(flags, size) <= |data| && size <= DATA_SIZE
    ensures SameDrift(s, WrittenByServer(s, id, flags, data, size, now).s)
  {
    hide EventsOk, OnlyLive, Counted, UniqueChannels, UniqueAddrs, SocketsOk, Subs, Drift, Obtain, SendEvent;
    ObtainDrift(s, id, flags.force, VAR_UNDEFINED);
    ObtainKeepsInv(s, id, flags.force, VAR_UNDEFINED);
    var o := Obtain(s, id, flags.force, VAR_UNDEFINED);
    var t := WrittenByServer(s, id, flags, data, size, now).s;
    if WrittenByServer(s, id, flags, data, size, now).code == 0 {
      SameConsumersSameDrift(o.s, t, o.slot, t.events[o.slot]);
    }
  }

  lemma HookDrift(s: State, id: Id, force: bool, callback: nat)
    requires Inv(s) && Named(id)
    ensures SameDrift(s, Hooked(s, id, force, callback).s) && SameDrift(s, Unhooked(s, id).s)
  {
    hide EventsOk, OnlyLive, Counted, UniqueChannels, UniqueAddrs, SocketsOk, Subs, Drift, Obtain;
    ObtainDrift(s, id, force, VAR_UNDEFINED);
    ObtainKeepsInv(s, id, force, VAR_UNDEFINED);
    var o := Obtain(s, id, force, VAR_UNDEFINED);
    var t := Hooked(s, id, force, callback).s;
    if o.code == 0 {
      SameConsumersSameDrift(o.s, t, o.slot, t.events[o.slot]);
    }
    var i := FindEvent(s.events, id);
    if i < EVENTS {
      SameConsumersSameDrift(s, Unhooked(s, id).s, i, Unhooked(s, id).s.events[i]);
    }
  }

  // A request that is turned away for its version closes its sender.
  predicate Rejects(req: Request) {
    req.Hello? && req.major != MAJOR
  }

  lemma GreetDrift(s: State, c: ClientIx, id: Id, major: U32, minor: U32)
    requires Inv(s) && Live(s, c)
    ensures var t := Greeted(s, c, id, major, minor).s;
      forall d: ClientIx :: Drift(t, d) == Drift(s, d) && (Live(t, d) <==> Live(s, d) && !(major != MAJOR && d == c))
  {
    hide EventsOk, OnlyLive, Counted, UniqueChannels, UniqueAddrs, SocketsOk, CloseClient, Emit;
    if major != MAJOR {
      CloseDrift(s, c);
    }
  }

  lemma AnnounceDrift(s: State, c: ClientIx, id: Id, port: U16, flags: U32)
    requires Shape(s)
    ensures SameDrift(s, Announced(s, c, id, port, flags).s)
  {
  }

  lemma RequestDrift(s: State, c: ClientIx, req: Request, now: Time)
    requires Inv(s) && Live(s, c) && Bounded(req) && NamesOk(req)
    ensures var t := Processed(s, c, req, now).s;
      forall d: ClientIx ::
        && Drift(t, d) == Drift(s, d) + (if req.Undefine? && req.id in Abs(s) && d in Abs(s)[req.id].subs then 1 else 0)
        && (Live(t, d) <==> Live(s, d) && !(Rejects(req) && d == c))
  {
    hide EventsOk, OnlyLive, Counted, UniqueChannels, UniqueAddrs, SocketsOk, Abs, Drift, Live;
    hide Subscribed, Unsubscribed, Defined, Undefined, Written, Greeted, Announced;
    match req
    case Subscribe(id, flags, counter) => SubscribeDrift(s, c, id, flags, counter);
    case Unsubscribe(id) => UnsubscribeDrift(s, c, id);
    case Define(id, flags, size) => DefineDrift(s, id, flags, None, size);
    case Undefine(id) => UndefineDrift(s, id);
    case Write(id, flags, data) => WriteDrift(s, c, id, flags, data, now);
    case Hello(id, major, minor) => GreetDrift(s, c, id, major, minor);
    case Announce(id, port, flags) => AnnounceDrift(s, c, id, port, flags);
    case _ =>
  }

  lemma ConnectDrift(s: State, c: ClientIx, x: Client, count: U32)
    requires Inv(s) && x.socket != CLOSED
    requires x.subscribed == if Live(s, c) then s.clients[c].subscribed else 0
    ensures var t := PutClient(s, c, x).(clientCount := count);
      forall d: ClientIx ::
        && Drift(t, d) == (if d == c && !Live(s, c) then 0 else Drift(s, d))
        && (Live(t, d) <==> Live(s, d) || d == c)
  {
    if !Live(s, c) {
      DeadHoldsNothing(s, c);
    }
  }

  lemma DatagramClientDrift(s: State, addr: Addr, req: Request)
    requires Inv(s)
    ensures var (t, c) := ClientOfDatagram(s, addr, req);
      forall d: ClientIx ::
        && Drift(t, d) == (if d == c && !Live(s, d) then 0 else Drift(s, d))
        && (Live(t, d) <==> Live(s, d) || d == c)
  {
    hide EventsOk, OnlyLive, Counted, UniqueChannels, UniqueAddrs, SocketsOk, Drift;
    var c := FindUdpAddr(s.clients, addr);
    if c == CLIENTS && req.Hello? {
      var k := FindUdpId(s.clients, req.id);
      if k < CLIENTS {
        ConnectDrift(s, k, s.clients[k].(addr := addr), s.clientCount);
      } else {
        var free := FreeClient(s.clients);
        if free < CLIENTS {
          ConnectDrift(s, free, s.clients[free].(socket := UDP, addr := addr, subscribed := 0), Bump(s.clientCount));
        }
      }
    }
  }

  // The event that an input undefines, if it gets to do that.
  function Undefines(s: State, x: Input): Option<Id>
    requires Shape(s)
  {
    match x
    case Packet(_, req, _) => if req.Undefine? then Some(req.id) else None
    case Datagram(_, req, _) => if req.Undefine? && Sender(s, x).Some? then Some(req.id) else None
    case ServerUndefine(id) => Some(id)
    case _ => None
  }

  predicate Loses(s: State, x: Input, d: ClientIx)
    requires Shape(s)
  {
    Undefines(s, x).Some? && Undefines(s, x).value in Abs(s) && d in Abs(s)[Undefines(s, x).value].subs
  }

  lemma StepDrift(s: State, x: Input, d: ClientIx)
    requires Inv(s) && Legal(s, x)
    ensures var t := Step(s, x).s;
      Live(t, d) ==> Drift(t, d) == if Live(s, d) then Drift(s, d) + (if Loses(s, x, d) then 1 else 0) else 0
  {
    hide EventsOk, OnlyLive, Counted, UniqueChannels, UniqueAddrs, SocketsOk, Abs, Drift, Live;
    hide Processed, CloseClient, WrittenByServer, Defined, Undefined, Hooked, Unhooked, ClientOfDatagram;
    match x
    case Packet(c, req, now) => RequestDrift(s, c, req, now);
    case Datagram(addr, req, now) => DatagramDrift(s, addr, req, now, d);
    case Connection(fd, addr) =>
      var c := FreeClient(s.clients);
      if c < CLIENTS {
        FreeIsDead(s);
        ConnectDrift(s, c, s.clients[c].(socket := fd, addr := addr, subscribed := 0), Bump(s.clientCount));
      }
    case Gone(c) => CloseDrift(s, c);
    case ServerWrite(id, flags, data, size, now) => ServerWriteDrift(s, id, flags, data, size, now);
    case ServerDefine(id, flags, value, size) => DefineDrift(s, id, flags, value, size);
    case ServerUndefine(id) => UndefineDrift(s, id);
    case ServerHook(id, force, callback) => HookDrift(s, id, force, callback);
    case ServerUnhook(id) => HookDrift(s, id, false, 0);
  }

  lemma FreeIsDead(s: State)
    requires Shape(s)
    ensures FreeClient(s.clients) < CLIENTS ==> !Live(s, FreeClient(s.clients))
  {
  }

  lemma DatagramDrift(s: State, addr: Addr, req: Request, now: Time, d: ClientIx)
    requires Inv(s) && Bounded(req) && NamesOk(req)
    ensures var t := DatagramProcessed(s, addr, req, now).s;
            var x: Call := Datagram(addr, req, now);
      Live(t, d) ==> Drift(t, d) == if Live(s, d) then Drift(s, d) + (if Loses(s, x, d) then 1 else 0) else 0
  {
    hide EventsOk, OnlyLive, Counted, UniqueChannels, UniqueAddrs, SocketsOk, Abs, Drift, Live, Processed;
    hide ClientOfDatagram;
    DatagramClientKeepsInv(s, addr, req);
    DatagramClientDrift(s, addr, req);
    var (t, c) := ClientOfDatagram(s, addr, req);
    SameJunk(s, t);
    if c < CLIENTS {
      OnlyHelloOpens(s, addr, req);
      RequestDrift(t, c, req, now);
    }
  }

  lemma OnlyHelloOpens(s: State, addr: Addr, req: Request)
    requires Shape(s)
    ensures var (t, c) := ClientOfDatagram(s, addr, req);
      c < CLIENTS && !Live(s, c) ==> req.Hello?
  {
  }

  // What a client has lost to undefinitions since it connected.
  function Lost(s: State, xs: seq<Input>, d: ClientIx): nat
    requires Shape(s)
  {
    if xs == [] then 0
    else
      var t := Run(s, xs[..|xs| - 1]);
      if !Live(t, d) then 0
      else Lost(s, xs[..|xs| - 1], d) + if Loses(t, xs[|xs| - 1], d) then 1 else 0
  }

  // Conservation over whole runs: each live client's counter is the number of
  // active events that hold it plus what it lost to undefinitions, so it
  // never goes negative, and is exact precisely while nothing was lost.
  lemma {:induction false} SubscriptionsConserved(s: State, xs: seq<Input>, d: ClientIx)
    requires Initial(s) && LegalRun(s, xs)
    ensures var t := Run(s, xs);
      Live(t, d) ==> t.clients[d].subscribed == |Holding(t.events, d)| + Lost(s, xs, d)
  {
    InitialInv(s);
    hide EventsOk, OnlyLive, Counted, UniqueChannels, UniqueAddrs, SocketsOk, Abs, Step, Loses, Holding;
    if xs == [] {
    } else {
      var front, x := xs[..|xs| - 1], xs[|xs| - 1];
      SubscriptionsConserved(s, front, d);
      RunKeepsInv(s, front);
      StepDrift(Run(s, front), x, d);
    }
  }

  // --------------------------------------------------------- double counting

  // The clients' counters and the events' counters, summed.
  function TotalSubscribed(s: State, n: nat): int
    requires Shape(s) && n <= CLIENTS
  {
    if n == 0 then 0
    else TotalSubscribed(s, n - 1) + if Live(s, n - 1) then s.clients[n - 1].subscribed else 0
  }

  function TotalDrift(s: State, n: nat): int
    requires Shape(s) && n <= CLIENTS
  {
    if n == 0 then 0 else TotalDrift(s, n - 1) + if Live(s, n - 1) then Drift(s, n - 1) else 0
  }

  function TotalConsumers(es: seq<Event>): int {
    if es == [] then 0
    else TotalConsumers(es[..|es| - 1]) + if Active(es[|es| - 1]) then es[|es| - 1].consumersCount else 0
  }

  function TotalHolding(es: seq<Event>, n: nat): nat
    requires n <= CLIENTS
  {
    if n == 0 then 0 else TotalHolding(es, n - 1) + |Holding(es, n - 1)|
  }

  function Below(a: set<nat>, n: nat): set<nat> {
    set x | x in a && x < n
  }

  lemma HoldingStep(es: seq<Event>, c: ClientIx)
    requires es != []
    ensures var last := es[|es| - 1];
      |Holding(es, c)| == |Holding(es[..|es| - 1], c)| + if Active(last) && c in Subs(last) then 1 else 0
  {
    var n := |es| - 1;
    assert forall i | 0 <= i < n :: es[..n][i] == es[i];
    assert Holding(es, c) == Holding(es[..n], c) + if Active(es[n]) && c in Subs(es[n]) then {n} else {};
  }

  lemma {:induction false} TotalHoldingStep(es: seq<Event>, n: nat)
    requires es != [] && n <= CLIENTS
    ensures var last := es[|es| - 1];
      TotalHolding(es, n) == TotalHolding(es[..|es| - 1], n) + if Active(last) then |Below(Subs(last), n)| else 0
  {
    hide Holding, Subs;
    var last := es[|es| - 1];
    if n == 0 {
      assert Below(Subs(last), 0) == {};
    } else {
      TotalHoldingStep(es, n - 1);
      HoldingStep(es, n - 1);
      assert Below(Subs(last), n) == Below(Subs(last), n - 1) + if n - 1 in Subs(last) then {n - 1} else {};
    }
  }

  lemma {:induction false} TotalsAgree(es: seq<Event>)
    requires forall i | 0 <= i < |es| :: EventShape(es[i]) && EventOk(es[i])
    ensures TotalHolding(es, CLIENTS) == TotalConsumers(es)
  {
    if es == [] {
      NoEventsNoHolding(CLIENTS);
    } else {
      var last := es[|es| - 1];
      TotalsAgree(es[..|es| - 1]);
      TotalHoldingStep(es, CLIENTS);
      if Active(last) {
        CountIsSubscribers(last);
        assert Below(Subs(last), CLIENTS) == Subs(last);
      }
    }
  }

  lemma {:induction false} NoEventsNoHolding(n: nat)
    requires n <= CLIENTS
    ensures TotalHolding([], n) == 0
  {
    if n == 0 {
    } else {
      NoEventsNoHolding(n - 1);
      assert Holding([], n - 1) == {};
    }
  }

  lemma {:induction false} TotalsSplit(s: State, n: nat)
    requires Inv(s) && n <= CLIENTS
    ensures TotalSubscribed(s, n) == TotalHolding(s.events, n) + TotalDrift(s, n)
  {
    hide EventsOk, UniqueChannels, UniqueAddrs, SocketsOk, Counted, Holding;
    if n == 0 {
    } else {
      TotalsSplit(s, n - 1);
      if !Live(s, n - 1) {
        DeadHoldsNothing(s, n - 1);
      }
    }
  }

  // Both sides count the same subscriptions: the live clients' counters add
  // up to the active events' counters, plus what was lost.
  lemma DoubleCounting(s: State)
    requires Inv(s)
    ensures TotalSubscribed(s, CLIENTS) == TotalConsumers(s.events) + TotalDrift(s, CLIENTS)
  {
    TotalsSplit(s, CLIENTS);
    TotalsAgree(s.events);
  }

  predicate Undefining(x: Input) {
    match x
    case Packet(_, req, _) => req.Undefine?
    case Datagram(_, req, _) => req.Undefine?
    case ServerUndefine(_) => true
    case _ => false
  }

  lemma {:induction false} NothingLost(s: State, xs: seq<Input>, d: ClientIx)
    requires Shape(s) && forall k | 0 <= k < |xs| :: !Undefining(xs[k])
    ensures Lost(s, xs, d) == 0
  {
    hide Run, Abs, Live, Sender;
    if xs == [] {
    } else {
      var front, x := xs[..|xs| - 1], xs[|xs| - 1];
      assert !Undefining(x);
      NothingLost(s, front, d);
    }
  }

  lemma {:induction false} NoDrift(s: State, n: nat)
    requires Shape(s) && n <= CLIENTS && forall d: ClientIx | Live(s, d) :: Drift(s, d) == 0
    ensures TotalDrift(s, n) == 0
  {
    hide Drift;
    if n == 0 {
    } else {
      NoDrift(s, n - 1);
    }
  }

  // In a run in which nothing is undefined, every live client's counter is
  // the number of active events that hold it, and the clients' counters and
  // the events' counters have the same sum.
  lemma TotalsAgreeWithoutUndefine(s: State, xs: seq<Input>)
    requires Initial(s) && LegalRun(s, xs) && forall k | 0 <= k < |xs| :: !Undefining(xs[k])
    ensures var t := Run(s, xs);
      && (forall d: ClientIx | Live(t, d) :: t.clients[d].subscribed == |Holding(t.events, d)|)
      && TotalSubscribed(t, CLIENTS) == TotalConsumers(t.events)
  {
    InitialInv(s);
    hide EventsOk, OnlyLive, Counted, UniqueChannels, UniqueAddrs, SocketsOk, Run, LegalRun, Holding, Initial;
    hide Undefining;
    RunKeepsInv(s, xs);
    var t := Run(s, xs);
    forall d: ClientIx | Live(t, d) ensures t.clients[d].subscribed == |Holding(t.events, d)| {
      SubscriptionsConserved(s, xs, d);
      NothingLost(s, xs, d);
    }
    NoDrift(t, CLIENTS);
    DoubleCounting(t);
  }

  // What holds in every state that the server can come to: identifiers are
  // distinct and within the capacity, counters tell the truth, subscribers and
  // channel owners are live clients, datagram clients have distinct addresses,
  // and there is room for one more subscription of anybody to anything.
  ghost predicate Truthful(t: State)
    requires Shape(t)
  {
    && (forall i, j | 0 <= i < j < EVENTS && Active(t.events[i]) && Active(t.events[j]) ::
          t.events[i].id != t.events[j].id)
    && t.eventCount == |ActiveSlots(t.events)| == |Abs(t)| <= EVENTS
    && (forall i | 0 <= i < EVENTS && Active(t.events[i]) ::
          t.events[i].consumersCount == |Held(t.events[i].consumers)| == |Subs(t.events[i])| <= CLIENTS)
    && (forall i, c: ClientIx | 0 <= i < EVENTS && Active(t.events[i]) && c in Subs(t.events[i]) :: Live(t, c))
    && (forall i, c: ClientIx | 0 <= i < CHANNELS && Open(t.channels[i]) && t.channels[i].producer == Some(c) ::
          Live(t, c))
    && (forall c: ClientIx, d: ClientIx | c != d && t.clients[c].socket == UDP && t.clients[d].socket == UDP ::
          t.clients[c].addr != t.clients[d].addr)
    && (forall i, c: ClientIx | 0 <= i < EVENTS && Active(t.events[i]) && Live(t, c) :: AddConsumer(t, i, c).1 == 0)
  }

  lemma ReachableStates(s: State, xs: seq<Input>)
    requires Initial(s) && LegalRun(s, xs)
    ensures Truthful(Run(s, xs))
  {
    hide EventsOk, OnlyLive, Counted, UniqueChannels, UniqueAddrs, SocketsOk, Run, LegalRun, Initial, AddConsumer;
    hide Abs, ActiveSlots, Held, Subs;
    InitialInv(s);
    RunKeepsInv(s, xs);
    var t := Run(s, xs);
    CapacityAndCount(t);
    CountOfActive(t);
    PointersAreLive(t);
    forall i | 0 <= i < EVENTS && Active(t.events[i])
      ensures t.events[i].consumersCount == |Held(t.events[i].consumers)| == |Subs(t.events[i])| <= CLIENTS
    {
      EventTruthful(t, i);
    }
    forall i, c: ClientIx | 0 <= i < EVENTS && Active(t.events[i]) && Live(t, c) ensures AddConsumer(t, i, c).1 == 0 {
      AddKeepsInv(t, i, c);
    }
  }

  lemma EventTruthful(t: State, i: nat)
    requires Inv(t) && i < EVENTS && Active(t.events[i])
    ensures t.events[i].consumersCount == |Held(t.events[i].consumers)| == |Subs(t.events[i])| <= CLIENTS
  {
    hide OnlyLive, Counted, UniqueChannels, UniqueAddrs, SocketsOk, UniqueIds;
    CountIsSubscribers(t.events[i]);
  }

  lemma PointersAreLive(t: State)
    requires Inv(t)
    ensures forall i, j | 0 <= i < j < EVENTS && Active(t.events[i]) && Active(t.events[j]) ::
        t.events[i].id != t.events[j].id
    ensures forall i, c: ClientIx | 0 <= i < EVENTS && Active(t.events[i]) && c in Subs(t.events[i]) :: Live(t, c)
    ensures forall i, c: ClientIx | 0 <= i < CHANNELS && Open(t.channels[i]) && t.channels[i].producer == Some(c) ::
        Live(t, c)
    ensures forall c: ClientIx, d: ClientIx | c != d && t.clients[c].socket == UDP && t.clients[d].socket == UDP ::
              t.clients[c].addr != t.clients[d].addr
  {
    hide Counted, UniqueChannels, SocketsOk, EventOk;
  }

  // ------------------------------------------------------------------- lists

  function Somes<T>(slots: seq<Option<T>>): set<nat> {
    set i: nat | 0 <= i < |slots| && slots[i].Some?
  }

  lemma {:induction false} UsedSnoc<T>(slots: seq<Option<T>>)
    requires slots != []
    ensures var n := |slots| - 1;
      Used(slots) == Used(slots[..n]) + if slots[n].Some? then [slots[n].value] else []
    decreases |slots|
  {
    var n := |slots| - 1;
    if n > 0 {
      UsedSnoc(slots[1..]);
      assert slots[1..][..n - 1] == slots[..n][1..];
      assert slots[1..][n - 1] == slots[n];
    } else {
      assert slots[1..] == [] && slots[..0] == [];
    }
  }

  lemma SomesStep<T>(slots: seq<Option<T>>)
    requires slots != []
    ensures var n := |slots| - 1;
      |Somes(slots)| == |Somes(slots[..n])| + if slots[n].Some? then 1 else 0
  {
    var n := |slots| - 1;
    assert Somes(slots) == Somes(slots[..n]) + if slots[n].Some? then {n} else {};
  }

  lemma {:induction false} UsedCount<T>(slots: seq<Option<T>>)
    ensures |Used(slots)| == |Somes(slots)|
    decreases |slots|
  {
    if slots == [] {
      assert Somes(slots) == {};
    } else {
      UsedSnoc(slots);
      SomesStep(slots);
      UsedCount(slots[..|slots| - 1]);
    }
  }

  lemma {:induction false} EmitAllLive(s: State, c: ClientIx, msgs: seq<Message>)
    requires Inv(s) && Live(s, c)
    ensures EmitAll(s, c, msgs) == seq(|msgs|, i requires 0 <= i < |msgs| => Sent(c, msgs[i]))
    decreases |msgs|
  {
    LiveGets(s, c);
    hide Inv, Emit;
    if msgs == [] {
    } else {
      EmitAllLive(s, c, msgs[1..]);
    }
  }

  // The records of the active events, one each.
  lemma EventRecordsCount(s: State)
    requires Inv(s)
    ensures s.eventCount == |Used(EventRecords(s))| == |Abs(s)| <= EVENTS
  {
    hide OnlyLive, Counted, UniqueChannels, UniqueAddrs, SocketsOk, EventsOk, Abs, Used;
    CapacityAndCount(s);
    CountOfActive(s);
    UsedCount(EventRecords(s));
    assert Somes(EventRecords(s)) == ActiveSlots(s.events);
  }

  lemma CountOfActive(s: State)
    requires Inv(s)
    ensures s.eventCount == |ActiveSlots(s.events)|
  {
  }

  // The event list is exact: as many pages as each of them announces, numbered
  // from 0, the last one marked, together the records of all active events in
  // slot order.
  lemma EventListExact(s: State, c: ClientIx, sequence: byte)
    requires Inv(s) && Live(s, c)
    ensures var pages := Response(EventRecords(s), EVENTS_PER_PAGE, s.eventCount, sequence);
            var out := EventsListed(s, c, sequence).out;
      && |out| == |pages| == |Abs(s)| / EVENTS_PER_PAGE + 1
      && (forall k | 0 <= k < |out| ::
            && out[k] == Sent(c, EventPage(pages[k]))
            && pages[k].announced == |pages| && pages[k].index == k && (pages[k].end <==> k == |pages| - 1))
      && Contents(pages) == Used(EventRecords(s)) && |Used(EventRecords(s))| == |Abs(s)|
  {
    hide EventsOk, OnlyLive, Counted, UniqueChannels, UniqueAddrs, SocketsOk, Abs, Used, EventRecords, Contents;
    hide Response, EmitAll;
    EventRecordsCount(s);
    ResponseShape(EventRecords(s), EVENTS_PER_PAGE, s.eventCount, sequence);
    AnnouncedPages(EventRecords(s), EVENTS_PER_PAGE, s.eventCount, sequence);
    var pages := Response(EventRecords(s), EVENTS_PER_PAGE, s.eventCount, sequence);
    EmitAllLive(s, c, EventPages(pages));
  }

  // The client list is not: a client that goes away is no longer listed, but
  // still counted.
  lemma ClientCountKeepsTheGone(s: State, c: ClientIx)
    requires Inv(s) && Live(s, c)
    ensures var t := CloseClient(s, c);
      && t.clientCount == s.clientCount
      && |Used(ClientRecords(t))| == |Used(ClientRecords(s))| - 1
  {
    hide EventsOk, OnlyLive, Counted, UniqueChannels, UniqueAddrs, SocketsOk, RemoveFromEvents, Drift, Used;
    CloseDrift(s, c);
    CountKept(s, c, EVENTS);
    UsedCount(ClientRecords(s));
    UsedCount(ClientRecords(CloseClient(s, c)));
    hide CloseClient;
    var t := CloseClient(s, c);
    forall d: ClientIx ensures t.clients[d].socket != CLOSED <==> s.clients[d].socket != CLOSED && d != c {
      assert Live(t, d) <==> Live(s, d) && d != c;
    }
    assert Somes(ClientRecords(CloseClient(s, c))) == Somes(ClientRecords(s)) - {c};
    assert c in Somes(ClientRecords(s));
  }

  lemma {:induction false} CountKept(s: State, c: ClientIx, n: nat)
    requires Shape(s) && n <= EVENTS
    ensures RemoveFromEvents(s, c, n).clientCount == s.clientCount
  {
    if n == 0 {
    } else {
      CountKept(s, c, n - 1);
    }
  }
}
