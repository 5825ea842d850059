// What every request keeps.
module BrokerInvariant {
  import opened Bytes
  import opened Headers
  import opened Broker

  // ------------------------------------------------------------ definitions

  // The consumer slots that hold a pointer, and the clients they point to.
  function Held(consumers: seq<Option<ClientIx>>): set<nat> {
    set j: nat | 0 <= j < |consumers| && consumers[j].Some?
  }

  function Subs(e: Event): set<nat> {
    set c: nat | c < CLIENTS && Some(c) in e.consumers
  }

  ghost predicate Distinct(consumers: seq<Option<ClientIx>>) {
    forall j, k | 0 <= j < k < |consumers| && consumers[j].Some? :: consumers[j] != consumers[k]
  }

  ghost predicate EventOk(e: Event) {
    Active(e) ==> Distinct(e.consumers) && e.consumersCount == |Held(e.consumers)|
  }

  function ActiveSlots(es: seq<Event>): set<nat> {
    set i: nat | 0 <= i < |es| && Active(es[i])
  }

  // The active events that a client is subscribed to, by slot.
  function Holding(es: seq<Event>, c: ClientIx): set<nat> {
    set i: nat | 0 <= i < |es| && Active(es[i]) && Some(c) in es[i].consumers
  }

  ghost predicate UniqueIds(es: seq<Event>) {
    forall i, j | 0 <= i < |es| && 0 <= j < |es| && Active(es[i]) && es[i].id == es[j].id :: i == j
  }

  ghost predicate UniqueChannels(chs: seq<Channel>) {
    forall i, j | 0 <= i < |chs| && 0 <= j < |chs| && Open(chs[i]) && chs[i].id == chs[j].id :: i == j
  }

  ghost predicate UniqueAddrs(cs: seq<Client>) {
    forall c, d | 0 <= c < |cs| && 0 <= d < |cs| && cs[c].socket == UDP && cs[d].socket == UDP
        && cs[c].addr == cs[d].addr ::
      c == d
  }

  // Socket fields hold a descriptor or one of the two stand-ins.
  ghost predicate SocketsOk(cs: seq<Client>) {
    forall c | 0 <= c < |cs| :: cs[c].socket >= UDP
  }

  // Consumers and channel owners are live clients.
  ghost predicate OnlyLive(s: State)
    requires Shape(s)
  {
    && (forall i, c: ClientIx | 0 <= i < EVENTS && Active(s.events[i]) && Some(c) in s.events[i].consumers ::
        Live(s, c))
    && (forall i, c: ClientIx | 0 <= i < CHANNELS && Open(s.channels[i]) && s.channels[i].producer == Some(c) ::
        Live(s, c))
  }

  // The client's own counter never falls short of the events that hold it.
  ghost predicate Counted(s: State)
    requires Shape(s)
  {
    forall c: ClientIx | Live(s, c) :: s.clients[c].subscribed >= |Holding(s.events, c)|
  }

  ghost predicate EventsOk(s: State)
    requires Shape(s)
  {
    && (forall i | 0 <= i < EVENTS :: EventOk(s.events[i]))
    && UniqueIds(s.events)
    && s.eventCount == |ActiveSlots(s.events)|
  }

  ghost predicate Inv(s: State) {
    && Shape(s) && EventsOk(s) && OnlyLive(s) && Counted(s)
    && UniqueChannels(s.channels) && UniqueAddrs(s.clients) && SocketsOk(s.clients)
  }

  // An identifier that a client or program may use: not the free-slot marker.
  predicate Named(id: Id) {
    id.w0 != MARKER
  }

  // ------------------------------------------------------------- cardinality

  lemma {:induction false} SubrangeSize(a: set<nat>, n: nat)
    requires forall x | x in a :: x < n
    ensures |a| <= n
    decreases n
  {
    if n > 0 {
      SubrangeSize(a - {n - 1}, n - 1);
      assert n - 1 !in a ==> a - {n - 1} == a;
    } else {
      assert a == {};
    }
  }

  lemma {:induction false} WholeRangeSize(a: set<nat>, n: nat)
    requires forall x: nat | x < n :: x in a
    ensures |a| >= n
    decreases n
  {
    if n == 0 {
    } else {
      WholeRangeSize(a - {n - 1}, n - 1);
    }
  }

  lemma HeldBound(consumers: seq<Option<ClientIx>>)
    ensures forall j | j in Held(consumers) :: j < |consumers|
  {
  }

  lemma HeldStep(consumers: seq<Option<ClientIx>>)
    requires consumers != []
    ensures var n := |consumers| - 1;
      && n !in Held(consumers[..n])
      && Held(consumers) == Held(consumers[..n]) + if consumers[n].Some? then {n} else {}
  {
  }

  // Distinct pointers: as many clients as slots that hold one.
  lemma {:induction false} HeldValues(consumers: seq<Option<ClientIx>>, vs: set<nat>)
    requires Distinct(consumers)
    requires forall c: nat :: c in vs <==> c < CLIENTS && Some(c) in consumers
    ensures |vs| == |Held(consumers)|
  {
    if consumers == [] {
      assert vs == {};
    } else {
      var n := |consumers| - 1;
      var front, last := consumers[..n], consumers[n];
      HeldStep(consumers);
      assert consumers == front + [last];
      if last.Some? {
        var v: nat := last.value;
        assert last !in front;
        assert v in vs;
        forall c: nat ensures c in vs - {v} <==> c < CLIENTS && Some(c) in front {
          assert c < CLIENTS ==> (Some(c) in consumers <==> Some(c) in front || Some(c) == last);
        }
        HeldValues(front, vs - {v});
      } else {
        forall c: nat ensures c in vs <==> c < CLIENTS && Some(c) in front {
          assert c < CLIENTS ==> (Some(c) in consumers <==> Some(c) in front || Some(c) == last);
        }
        HeldValues(front, vs);
      }
    }
  }

  // Conservation for one event: its counter is its number of subscribers.
  lemma CountIsSubscribers(e: Event)
    requires EventShape(e) && Active(e) && EventOk(e)
    ensures e.consumersCount == |Subs(e)| <= CLIENTS
  {
    HeldValues(e.consumers, Subs(e));
    SubrangeSize(Held(e.consumers), CLIENTS);
  }

  // A subscription never finds the consumer slots full: there are as many of
  // them as clients, and no client is there twice.
  lemma RoomForConsumer(e: Event, c: ClientIx)
    requires EventShape(e) && Active(e) && EventOk(e)
    requires Some(c) !in e.consumers
    ensures IndexOf(e.consumers, None) < CLIENTS
  {
    HeldValues(e.consumers, Subs(e));
    SubrangeSize(Subs(e) + {c}, CLIENTS);
    if IndexOf(e.consumers, None) == CLIENTS {
      WholeRangeSize(Held(e.consumers), CLIENTS);
      assert false;
    }
  }

  lemma IndexInHas(consumers: seq<Option<ClientIx>>, x: Option<ClientIx>)
    ensures IndexOf(consumers, x) < |consumers| <==> x in consumers
  {
  }

  // ------------------------------------------------------- primitive changes

  // One event slot is replaced.
  lemma SetEventKeepsInv(s: State, i: nat, e: Event, count: U32)
    requires Inv(s) && i < EVENTS && EventShape(e) && EventOk(e)
    requires Active(e) ==> forall j | 0 <= j < EVENTS && j != i :: s.events[j].id != e.id
    requires Active(e) ==> forall c: ClientIx | Some(c) in e.consumers :: Live(s, c)
    requires count == |ActiveSlots(s.events[i := e])|
    requires forall c: ClientIx | Live(s, c) :: |Holding(s.events[i := e], c)| <= |Holding(s.events, c)|
    ensures Inv(PutEvent(s, i, e).(eventCount := count))
  {
    hide Held, Subs, Distinct;
    var t := PutEvent(s, i, e).(eventCount := count);
    forall c: ClientIx | Live(t, c) ensures t.clients[c].subscribed >= |Holding(t.events, c)| {
      assert Live(s, c);
    }
  }

  // A slot's contents change, but not its identifier or its consumers.
  lemma PutKeepsInv(s: State, i: nat, e: Event)
    requires Inv(s) && i < EVENTS && EventShape(e) && Active(s.events[i])
    requires e.id == s.events[i].id && e.consumers == s.events[i].consumers
    requires e.consumersCount == s.events[i].consumersCount
    ensures Inv(PutEvent(s, i, e))
  {
    assert ActiveSlots(s.events[i := e]) == ActiveSlots(s.events);
    forall c: ClientIx ensures Holding(s.events[i := e], c) == Holding(s.events, c) {
    }
    SetEventKeepsInv(s, i, e, s.eventCount);
  }

  lemma ObtainKeepsInv(s: State, id: Id, force: bool, vartype: VarType)
    requires Inv(s) && Named(id)
    ensures var o := Obtain(s, id, force, vartype);
      && Inv(o.s)
      && (o.code == 0 ==> o.s.events[o.slot].id == id)
      && o.s.clients == s.clients
  {
    hide Held, Distinct, Subs, UniqueAddrs, UniqueChannels, OnlyLive, Counted;
    var i := FindEvent(s.events, id);
    var k := FreeEvent(s.events);
    if i == EVENTS && force && k < EVENTS {
      var e := FreshEvent(s.events[k], id).(vartype := vartype);
      FreshIsEmpty(s.events[k], id, vartype);
      assert ActiveSlots(s.events[k := e]) == ActiveSlots(s.events) + {k};
      SubrangeSize(ActiveSlots(s.events[k := e]), EVENTS);
      forall c: ClientIx ensures Holding(s.events[k := e], c) == Holding(s.events, c) {
      }
      SetEventKeepsInv(s, k, e, Bump(s.eventCount));
    }
  }

  lemma FreshIsEmpty(slot: Event, id: Id, vartype: VarType)
    requires EventShape(slot)
    ensures var e := FreshEvent(slot, id).(vartype := vartype);
      EventShape(e) && EventOk(e) && Subs(e) == {} && forall c: ClientIx :: Some(c) !in e.consumers
  {
    assert Held(NoConsumers()) == {};
  }

  lemma FreeKeepsInv(s: State, id: Id)
    requires Inv(s) && Named(id)
    ensures Inv(FreeSlot(s, id))
  {
    var i := FindEvent(s.events, id);
    if i < EVENTS {
      var e := s.events[i].(id := s.events[i].id.(w0 := MARKER));
      assert i in ActiveSlots(s.events);
      assert ActiveSlots(s.events[i := e]) == ActiveSlots(s.events) - {i};
      SubrangeSize(ActiveSlots(s.events), EVENTS);
      forall c: ClientIx ensures |Holding(s.events[i := e], c)| <= |Holding(s.events, c)| {
        assert Holding(s.events[i := e], c) == Holding(s.events, c) - {i};
      }
      SetEventKeepsInv(s, i, e, Drop(s.eventCount));
    }
  }

  // What one slot of an event's consumers changes.
  lemma SlotAdded(cs: seq<Option<ClientIx>>, j: nat, c: ClientIx)
    requires j < |cs| && cs[j] == None && Some(c) !in cs && Distinct(cs)
    ensures var cs' := cs[j := Some(c)];
      && Distinct(cs') && Held(cs') == Held(cs) + {j} && j !in Held(cs)
      && forall d: ClientIx :: Some(d) in cs' <==> Some(d) in cs || d == c
  {
    var cs' := cs[j := Some(c)];
    assert cs'[j] == Some(c);
    forall d: ClientIx ensures Some(d) in cs' <==> Some(d) in cs || d == c {
      if Some(d) in cs {
        var k :| 0 <= k < |cs| && cs[k] == Some(d);
        assert cs'[k] == Some(d);
      }
    }
  }

  lemma SlotRemoved(cs: seq<Option<ClientIx>>, j: nat, c: ClientIx)
    requires j < |cs| && cs[j] == Some(c) && Distinct(cs)
    ensures var cs' := cs[j := None];
      && Distinct(cs') && Held(cs') == Held(cs) - {j} && j in Held(cs)
      && forall d: ClientIx :: Some(d) in cs' <==> Some(d) in cs && d != c
  {
    var cs' := cs[j := None];
    forall d: ClientIx ensures Some(d) in cs' <==> Some(d) in cs && d != c {
      if Some(d) in cs && d != c {
        var k :| 0 <= k < |cs| && cs[k] == Some(d);
        assert cs'[k] == Some(d);
      }
    }
  }

  lemma ConsumerSlotAdded(e: Event, j: nat, c: ClientIx)
    requires EventShape(e) && Active(e) && EventOk(e)
    requires j < CLIENTS && e.consumers[j] == None && Some(c) !in e.consumers
    ensures var e' := e.(consumers := e.consumers[j := Some(c)], consumersCount := Bump(e.consumersCount));
      EventOk(e') && Subs(e') == Subs(e) + {c}
  {
    hide Held, Distinct;
    HeldBound(e.consumers);
    SlotAdded(e.consumers, j, c);
    SubrangeSize(Held(e.consumers) + {j}, CLIENTS);
  }

  lemma ConsumerSlotRemoved(e: Event, j: nat, c: ClientIx)
    requires EventShape(e) && Active(e) && EventOk(e)
    requires j < CLIENTS && e.consumers[j] == Some(c)
    ensures var e' := e.(consumers := e.consumers[j := None], consumersCount := Drop(e.consumersCount));
      EventOk(e') && Subs(e') == Subs(e) - {c}
  {
    hide Held, Distinct;
    HeldBound(e.consumers);
    SlotRemoved(e.consumers, j, c);
    SubrangeSize(Held(e.consumers), CLIENTS);
  }

  // One event's consumers change by one client, and the client's counter with
  // them.
  lemma ConsumersKeepInv(s: State, i: nat, e: Event, c: ClientIx, n: int)
    requires Inv(s) && i < EVENTS && Active(s.events[i]) && Live(s, c)
    requires EventShape(e) && EventOk(e) && e.id == s.events[i].id
    requires || (Subs(e) == Subs(s.events[i]) + {c} && n == s.clients[c].subscribed + 1)
             || (Subs(e) == Subs(s.events[i]) - {c} && c in Subs(s.events[i]) && n == s.clients[c].subscribed - 1)
    ensures Inv(PutClient(PutEvent(s, i, e), c, s.clients[c].(subscribed := n)))
  {
    hide UniqueChannels, EventOk, Distinct, Held;
    var t := PutClient(PutEvent(s, i, e), c, s.clients[c].(subscribed := n));
    assert ActiveSlots(t.events) == ActiveSlots(s.events);
    forall d: ClientIx | Live(t, d) ensures t.clients[d].subscribed >= |Holding(t.events, d)| {
      HoldingChange(s, i, e, d);
      assert Live(s, d);
    }
    forall k, d: ClientIx | 0 <= k < EVENTS && Active(t.events[k]) && Some(d) in t.events[k].consumers
      ensures Live(t, d)
    {
      if k == i { assert d in Subs(e); assert d in Subs(s.events[i]) || d == c; }
    }
  }

  lemma HoldingChange(s: State, i: nat, e: Event, d: ClientIx)
    requires Shape(s) && i < EVENTS && Active(s.events[i]) && e.id == s.events[i].id
    ensures var h := Holding(s.events[i := e], d);
      && (d in Subs(e) <==> i in h)
      && h - {i} == Holding(s.events, d) - {i}
      && (d in Subs(s.events[i]) <==> i in Holding(s.events, d))
      && |h| == |Holding(s.events, d)| + (if i in h then 1 else 0) - (if i in Holding(s.events, d) then 1 else 0)
  {
    var h, g := Holding(s.events[i := e], d), Holding(s.events, d);
    assert h - {i} == g - {i};
    assert |h| == |h - {i}| + if i in h then 1 else 0;
    assert |g| == |g - {i}| + if i in g then 1 else 0;
  }

  lemma AddKeepsInv(s: State, i: nat, c: ClientIx)
    requires Inv(s) && i < EVENTS && Active(s.events[i]) && Live(s, c)
    ensures var (t, code) := AddConsumer(s, i, c);
      && Inv(t) && code == 0
      && Subs(t.events[i]) == Subs(s.events[i]) + {c}
      && t.events == s.events[i := t.events[i]]
      && t.events[i] == s.events[i].(consumers := t.events[i].consumers, consumersCount := t.events[i].consumersCount)
      && (forall d: ClientIx :: t.clients[d] == s.clients[d].(subscribed := t.clients[d].subscribed))
      && t == s.(events := t.events, clients := t.clients)
  {
    hide Held, Distinct, UniqueIds, UniqueAddrs, UniqueChannels, OnlyLive, Counted, ActiveSlots, Holding;
    var e := s.events[i];
    IndexInHas(e.consumers, Some(c));
    if Some(c) in e.consumers {
      assert c in Subs(e);
      assert s.events == s.events[i := s.events[i]];
    } else {
      RoomForConsumer(e, c);
      var j := IndexOf(e.consumers, None);
      ConsumerSlotAdded(e, j, c);
      ConsumersKeepInv(s, i, e.(consumers := e.consumers[j := Some(c)], consumersCount := Bump(e.consumersCount)),
                       c, s.clients[c].subscribed + 1);
    }
  }

  lemma RemoveKeepsInv(s: State, i: nat, c: ClientIx)
    requires Inv(s) && i < EVENTS && Active(s.events[i]) && Live(s, c)
    ensures var t := RemoveConsumer(s, i, c);
      && Inv(t)
      && Subs(t.events[i]) == Subs(s.events[i]) - {c}
      && t.events == s.events[i := t.events[i]]
      && t.events[i] == s.events[i].(consumers := t.events[i].consumers, consumersCount := t.events[i].consumersCount)
      && (forall d: ClientIx :: t.clients[d] == s.clients[d].(subscribed := t.clients[d].subscribed))
      && t == s.(events := t.events, clients := t.clients)
  {
    hide Held, Distinct, UniqueIds, UniqueAddrs, UniqueChannels, OnlyLive, Counted, ActiveSlots, Holding;
    var e := s.events[i];
    IndexInHas(e.consumers, Some(c));
    if Some(c) in e.consumers {
      assert c in Subs(e);
      var j := IndexOf(e.consumers, Some(c));
      ConsumerSlotRemoved(e, j, c);
      ConsumersKeepInv(s, i, e.(consumers := e.consumers[j := None], consumersCount := Drop(e.consumersCount)),
                       c, s.clients[c].subscribed - 1);
    } else {
      assert s.events == s.events[i := s.events[i]];
      assert Subs(e) - {c} == Subs(e);
    }
  }

  // ---------------------------------------------------- connections, channels

  // Two states that differ, event by event, only in who is subscribed, and
  // client by client only in the counter that goes with it.
  ghost predicate SameButSubscribers(s: State, t: State)
    requires Shape(s) && Shape(t)
  {
    && (forall i | 0 <= i < EVENTS ::
          t.events[i] == s.events[i].(consumers := t.events[i].consumers, consumersCount := t.events[i].consumersCount))
    && (forall d: ClientIx :: t.clients[d] == s.clients[d].(subscribed := t.clients[d].subscribed))
    && t == s.(events := t.events, clients := t.clients)
  }

  // The client is off the first n events, and nothing else is different.
  ghost predicate TakenOff(s: State, t: State, c: ClientIx, n: nat)
    requires Shape(s) && Shape(t)
  {
    forall i | 0 <= i < EVENTS ::
      if Active(s.events[i]) && i < n then Subs(t.events[i]) == Subs(s.events[i]) - {c}
      else t.events[i] == s.events[i]
  }

  lemma {:induction false} RemoveAllKeepsInv(s: State, c: ClientIx, n: nat)
    requires Inv(s) && Live(s, c) && n <= EVENTS
    ensures Inv(RemoveFromEvents(s, c, n))
    ensures SameButSubscribers(s, RemoveFromEvents(s, c, n))
    ensures TakenOff(s, RemoveFromEvents(s, c, n), c, n)
  {
    hide Held, Distinct, Subs, EventsOk, UniqueAddrs, UniqueChannels, OnlyLive, Counted, SocketsOk, RemoveConsumer;
    if n == 0 {
    } else {
      RemoveAllKeepsInv(s, c, n - 1);
      var t := RemoveFromEvents(s, c, n - 1);
      OneMoreOff(s, t, c, n - 1);
    }
  }

  lemma OneMoreOff(s: State, t: State, c: ClientIx, n: nat)
    requires Shape(s) && Inv(t) && Live(t, c) && n < EVENTS && SameButSubscribers(s, t) && TakenOff(s, t, c, n)
    ensures var u := if Active(t.events[n]) then RemoveConsumer(t, n, c) else t;
      Inv(u) && SameButSubscribers(s, u) && TakenOff(s, u, c, n + 1)
  {
    hide Held, Distinct, Subs, EventsOk, UniqueAddrs, UniqueChannels, OnlyLive, Counted, SocketsOk, RemoveConsumer;
    if Active(t.events[n]) {
      RemoveKeepsInv(t, n, c);
    }
  }

  lemma CloseKeepsInv(s: State, c: ClientIx)
    requires Inv(s) && Live(s, c)
    ensures Inv(CloseClient(s, c))
    ensures var t := CloseClient(s, c);
      && !Live(t, c)
      && (forall i | 0 <= i < EVENTS ::
            && t.events[i]
                == s.events[i].(consumers := t.events[i].consumers, consumersCount := t.events[i].consumersCount)
            && (Active(s.events[i]) ==> Subs(t.events[i]) == Subs(s.events[i]) - {c})
            && (!Active(s.events[i]) ==> t.events[i] == s.events[i]))
      && t.counter == s.counter
      && (forall d: ClientIx | d != c :: t.clients[d] == s.clients[d].(subscribed := t.clients[d].subscribed))
      && t.clients[c] == s.clients[c].(subscribed := t.clients[c].subscribed, socket := CLOSED)
      && (forall i | 0 <= i < CHANNELS :: t.channels[i] == Dropped(s.channels[i], c))
  {
    RemoveAllKeepsInv(s, c, EVENTS);
    ClosedSlotKeepsInv(RemoveFromEvents(s, c, EVENTS), c);
  }

  lemma ClosedSlotKeepsInv(r: State, c: ClientIx)
    requires Inv(r) && Live(r, c)
    requires forall i | 0 <= i < EVENTS && Active(r.events[i]) :: c !in Subs(r.events[i])
    ensures var t := DropChannels(r, c); Inv(PutClient(t, c, t.clients[c].(socket := CLOSED)))
  {
    hide Held, Distinct, ActiveSlots, Holding, EventOk;
    var t := DropChannels(r, c);
    var u := PutClient(t, c, t.clients[c].(socket := CLOSED));
    forall i, d: ClientIx | 0 <= i < EVENTS && Active(u.events[i]) && Some(d) in u.events[i].consumers
      ensures Live(u, d)
    {
      assert d in Subs(r.events[i]) && Live(r, d);
    }
    forall d: ClientIx | Live(u, d) ensures u.clients[d].subscribed >= |Holding(u.events, d)| {
      assert Live(r, d);
    }
    forall i, d: ClientIx | 0 <= i < CHANNELS && Open(u.channels[i]) && u.channels[i].producer == Some(d)
      ensures Live(u, d)
    {
      assert Open(r.channels[i]) && Live(r, d);
    }
  }

  // Nobody is subscribed through a free client slot.
  lemma DeadHoldsNothing(s: State, c: ClientIx)
    requires Inv(s) && !Live(s, c)
    ensures Holding(s.events, c) == {}
    ensures forall i | 0 <= i < EVENTS && Active(s.events[i]) :: c !in Subs(s.events[i])
  {
  }

  // A client slot is put to use or changes its address.
  lemma ConnectKeepsInv(s: State, c: ClientIx, x: Client, count: U32)
    requires Inv(s) && x.socket != CLOSED && x.socket >= UDP
    requires Live(s, c) ==> x.subscribed == s.clients[c].subscribed
    requires !Live(s, c) ==> x.subscribed == 0
    requires x.socket == UDP ==> forall d: ClientIx | d != c && s.clients[d].socket == UDP ::
        s.clients[d].addr != x.addr
    ensures Inv(PutClient(s, c, x).(clientCount := count))
  {
    if !Live(s, c) {
      DeadHoldsNothing(s, c);
    }
    hide Held, Distinct, ActiveSlots, Holding, EventOk, Subs;
    var t := PutClient(s, c, x).(clientCount := count);
    forall d: ClientIx | Live(t, d) ensures t.clients[d].subscribed >= |Holding(t.events, d)| {
      assert d != c ==> Live(s, d);
    }
    forall i, d: ClientIx | 0 <= i < EVENTS && Active(t.events[i]) && Some(d) in t.events[i].consumers
      ensures Live(t, d)
    {
      assert Live(s, d);
    }
    forall i, d: ClientIx | 0 <= i < CHANNELS && Open(t.channels[i]) && t.channels[i].producer == Some(d)
      ensures Live(t, d)
    {
      assert Live(s, d);
    }
  }

  lemma AcceptKeepsInv(s: State, fd: nat, addr: Addr)
    requires Inv(s)
    ensures Inv(Accepted(s, fd, addr).s)
  {
    var c := FreeClient(s.clients);
    if c < CLIENTS {
      ConnectKeepsInv(s, c, s.clients[c].(socket := fd, addr := addr, subscribed := 0), Bump(s.clientCount));
    }
  }

  // Datagram clients keep distinct addresses, through arrival and move.
  lemma DatagramClientKeepsInv(s: State, addr: Addr, req: Request)
    requires Inv(s)
    ensures var (t, c) := ClientOfDatagram(s, addr, req);
      && Inv(t) && (c < CLIENTS ==> Live(t, c) && t.clients[c].socket == UDP && t.clients[c].addr == addr)
      && t.events == s.events && t.channels == s.channels && t.counter == s.counter
  {
    var c := FindUdpAddr(s.clients, addr);
    if c == CLIENTS && req.Hello? {
      var k := FindUdpId(s.clients, req.id);
      if k < CLIENTS {
        ConnectKeepsInv(s, k, s.clients[k].(addr := addr), s.clientCount);
        assert s.clientCount == PutClient(s, k, s.clients[k].(addr := addr)).clientCount;
      } else {
        var free := FreeClient(s.clients);
        if free < CLIENTS {
          ConnectKeepsInv(s, free, s.clients[free].(socket := UDP, addr := addr, subscribed := 0), Bump(s.clientCount));
        }
      }
    }
  }

  lemma AnnounceKeepsInv(s: State, c: ClientIx, id: Id, port: U16, flags: U32)
    requires Inv(s) && Live(s, c) && Named(id)
    ensures Inv(Announced(s, c, id, port, flags).s)
  {
    hide Held, Distinct, ActiveSlots, Holding, EventOk, Subs, UniqueIds, UniqueAddrs;
    var t := Announced(s, c, id, port, flags).s;
    var i := FindChannel(s.channels, id);
    var k := if i < CHANNELS then i else FreeChannel(s.channels);
    if k < CHANNELS {
      forall j, d: ClientIx | 0 <= j < CHANNELS && Open(t.channels[j]) && t.channels[j].producer == Some(d)
        ensures Live(t, d)
      {
        if j != k { assert Open(s.channels[j]) && Live(s, d); }
      }
      forall d: ClientIx | Live(t, d) ensures t.clients[d].subscribed >= |Holding(t.events, d)| {
        assert Live(s, d);
      }
    }
  }

  // ------------------------------------------------------------ the requests

  lemma SubscribeKeepsInv(s: State, c: ClientIx, id: Id, flags: Flags, presented: Word)
    requires Inv(s) && Live(s, c) && Named(id)
    ensures Inv(Subscribed(s, c, id, flags, presented).s)
  {
    hide Active, EventsOk, OnlyLive, Counted, UniqueChannels, UniqueAddrs;
    ObtainKeepsInv(s, id, flags.force, flags.vartype);
    var o := Obtain(s, id, flags.force, flags.vartype);
    if o.code == 0 {
      NamedIsActive(o.s.events[o.slot], id);
      AddKeepsInv(o.s, o.slot, c);
    }
  }

  lemma NamedIsActive(e: Event, id: Id)
    requires Named(id) && e.id == id
    ensures Active(e)
  {
  }

  lemma UnsubscribeKeepsInv(s: State, c: ClientIx, id: Id)
    requires Inv(s) && Live(s, c) && Named(id)
    ensures Inv(Unsubscribed(s, c, id).s)
  {
    hide EventsOk, OnlyLive, Counted, UniqueChannels, UniqueAddrs;
    var i := FindEvent(s.events, id);
    if i < EVENTS {
      RemoveKeepsInv(s, i, c);
    }
  }

  lemma DefineKeepsInv(s: State, id: Id, flags: Flags, data: Option<seq<byte>>, size: nat)
    requires Inv(s) && Named(id)
    requires data.Some? ==> |data.value| >= DefinedSize(flags, size)
    ensures Inv(Defined(s, id, flags, data, size).s)
  {
    hide EventsOk, OnlyLive, Counted, UniqueChannels, UniqueAddrs;
    ObtainKeepsInv(s, id, true, VAR_UNDEFINED);
    var o := Obtain(s, id, true, VAR_UNDEFINED);
    if o.code == 0 {
      var e := o.s.events[o.slot];
      var n := DefinedSize(flags, size);
      var buffer := if data.Some? then Overwrite(e.data, data.value[..n]) else e.data;
      PutKeepsInv(o.s, o.slot, e.(vartype := flags.vartype, size := n, data := buffer));
    }
  }

  lemma WriteKeepsInv(s: State, c: ClientIx, id: Id, flags: Flags, data: seq<byte>, now: SyncClock.Time)
    requires Inv(s) && Named(id) && |data| <= DATA_SIZE
    ensures Inv(Written(s, c, id, flags, data, now).s)
  {
    hide EventsOk, OnlyLive, Counted, UniqueChannels, UniqueAddrs, SendEvent;
    ObtainKeepsInv(s, id, flags.force, flags.vartype);
    var o := Obtain(s, id, flags.force, flags.vartype);
    if o.code == 0 {
      PutKeepsInv(o.s, o.slot, Stored(o.s, o.s.events[o.slot], c, data));
      CounterKeepsInv(PutEvent(o.s, o.slot, Stored(o.s, o.s.events[o.slot], c, data)),
                      (s.counter + 1) % 0x1_0000_0000_0000_0000);
    }
  }

  lemma CounterKeepsInv(s: State, counter: Word)
    requires Inv(s)
    ensures Inv(s.(counter := counter))
  {
  }

  lemma ServerWriteKeepsInv(s: State, id: Id, flags: Flags, data: seq<byte>, size: nat, now: SyncClock.Time)
    requires Inv(s) && Named(id)
    requires ServerSize(flags, size) <= |data| && size <= DATA_SIZE
    ensures Inv(WrittenByServer(s, id, flags, data, size, now).s)
  {
    hide EventsOk, OnlyLive, Counted, UniqueChannels, UniqueAddrs, SendEvent;
    ObtainKeepsInv(s, id, flags.force, VAR_UNDEFINED);
    var r := WrittenByServer(s, id, flags, data, size, now);
    var o := Obtain(s, id, flags.force, VAR_UNDEFINED);
    if o.code == 0 {
      PutKeepsInv(o.s, o.slot, r.s.events[o.slot]);
    }
  }

  lemma HookKeepsInv(s: State, id: Id, force: bool, callback: nat)
    requires Inv(s) && Named(id)
    ensures Inv(Hooked(s, id, force, callback).s) && Inv(Unhooked(s, id).s)
  {
    hide EventsOk, OnlyLive, Counted, UniqueChannels, UniqueAddrs;
    ObtainKeepsInv(s, id, force, VAR_UNDEFINED);
    var o := Obtain(s, id, force, VAR_UNDEFINED);
    if o.code == 0 {
      PutKeepsInv(o.s, o.slot, o.s.events[o.slot].(callback := Some(callback)));
    }
    var i := FindEvent(s.events, id);
    if i < EVENTS {
      PutKeepsInv(s, i, s.events[i].(callback := None));
    }
  }

  // A client's name and version are free.
  lemma RenameKeepsInv(s: State, c: ClientIx, id: Id, version: nat)
    requires Inv(s)
    ensures Inv(PutClient(s, c, s.clients[c].(id := id, version := version)))
  {
    hide Held, Distinct, ActiveSlots, Holding, EventOk, Subs;
    var t := PutClient(s, c, s.clients[c].(id := id, version := version));
    assert forall d: ClientIx :: Live(t, d) <==> Live(s, d);
  }

  lemma GreetKeepsInv(s: State, c: ClientIx, id: Id, major: U32, minor: U32)
    requires Inv(s) && Live(s, c)
    ensures Inv(Greeted(s, c, id, major, minor).s)
  {
    hide EventsOk, OnlyLive, Counted, UniqueChannels, UniqueAddrs, CloseClient, Emit;
    if major != MAJOR {
      CloseKeepsInv(s, c);
    }
    RenameKeepsInv(if major == MAJOR then s else CloseClient(s, c), c, id, major % 256 * 256 + minor % 256);
  }

  // The identifiers a request names are names.
  predicate NamesOk(req: Request) {
    match req
    case Subscribe(id, _, _) => Named(id)
    case Unsubscribe(id) => Named(id)
    case Define(id, _, _) => Named(id)
    case Undefine(id) => Named(id)
    case Write(id, _, _) => Named(id)
    case Read(id) => Named(id)
    case Announce(id, _, _) => Named(id)
    case TicketRequest(id) => Named(id)
    case _ => true
  }

  lemma ProcessKeepsInv(s: State, c: ClientIx, req: Request, now: SyncClock.Time)
    requires Inv(s) && Live(s, c) && Bounded(req) && NamesOk(req)
    ensures Inv(Processed(s, c, req, now).s)
  {
    hide Inv, Subscribed, Unsubscribed, Defined, Undefined, Written, Greeted, Announced, Live;
    match req
    case Subscribe(id, flags, counter) => SubscribeKeepsInv(s, c, id, flags, counter);
    case Unsubscribe(id) => UnsubscribeKeepsInv(s, c, id);
    case Define(id, flags, size) => DefineKeepsInv(s, id, flags, None, size);
    case Undefine(id) => UndefineKeepsInv(s, id);
    case Write(id, flags, data) => WriteKeepsInv(s, c, id, flags, data, now);
    case Hello(id, major, minor) => GreetKeepsInv(s, c, id, major, minor);
    case Announce(id, port, flags) => AnnounceKeepsInv(s, c, id, port, flags);
    case _ =>
  }

  lemma UndefineKeepsInv(s: State, id: Id)
    requires Inv(s) && Named(id)
    ensures Inv(Undefined(s, id).s)
  {
    hide Inv, FreeSlot;
    FreeKeepsInv(s, id);
  }

  lemma InitialInv(s: State)
    requires Initial(s)
    ensures Inv(s)
  {
    assert ActiveSlots(s.events) == {};
  }
}
