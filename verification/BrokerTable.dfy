// The broker as its users see it: a table from identifier to event, with a
// capacity, and the slot arrays as a refinement of it.
module BrokerTable {
  import opened Bytes
  import opened Headers
  import opened SyncClock
  import opened Broker
  import opened BrokerInvariant

  // An event without its slot: no consumer array, no marker. It has been
  // written `count` times, and has changed its writer `writers` times.
  datatype Entry = Entry(vartype: VarType, data: seq<byte>, size: nat, subs: set<nat>, stamp: Word,
                         producer: Option<ClientIx>, callback: Option<nat>, count: nat, writers: nat)

  type Table = map<Id, Entry>

  // What a reader sees of an entry.
  function Value(n: Entry): seq<byte> {
    n.data[..if n.size <= |n.data| then n.size else |n.data|]
  }

  function View(e: Event): Entry {
    Entry(e.vartype, e.data, e.size, Subs(e), e.stamp, e.producer, e.callback, e.count, e.producersCount)
  }

  function Ids(es: seq<Event>): set<Id> {
    set i | 0 <= i < |es| && Active(es[i]) :: es[i].id
  }

  // The table that the slots stand for.
  function Abs(s: State): Table
    requires Shape(s)
  {
    map id | id in Ids(s.events) :: View(s.events[FindEvent(s.events, id)])
  }

  // ---------------------------------------------------- slots against table

  // Finding a slot is finding a table entry.
  lemma Lookup(s: State, id: Id)
    requires Shape(s) && Named(id)
    ensures id in Abs(s) <==> FindEvent(s.events, id) < EVENTS
    ensures id in Abs(s) ==> Abs(s)[id] == View(s.events[FindEvent(s.events, id)])
  {
    if FindEvent(s.events, id) < EVENTS {
      assert s.events[FindEvent(s.events, id)].id in Ids(s.events);
    }
  }

  lemma SlotOf(s: State, i: nat)
    requires Shape(s) && UniqueIds(s.events) && i < EVENTS && Active(s.events[i])
    ensures FindEvent(s.events, s.events[i].id) == i
    ensures s.events[i].id in Abs(s) && Abs(s)[s.events[i].id] == View(s.events[i])
  {
    var k := FindEvent(s.events, s.events[i].id);
    assert k <= i;
    assert s.events[i].id in Ids(s.events);
  }

  ghost predicate Represents(m: Table, es: seq<Event>) {
    && (forall i | 0 <= i < |es| && Active(es[i]) :: es[i].id in m && m[es[i].id] == View(es[i]))
    && (forall id | id in m :: id in Ids(es))
  }

  lemma AbsRepresents(s: State)
    requires Shape(s) && UniqueIds(s.events)
    ensures Represents(Abs(s), s.events)
  {
    forall i | 0 <= i < EVENTS && Active(s.events[i])
      ensures s.events[i].id in Abs(s) && Abs(s)[s.events[i].id] == View(s.events[i])
    {
      SlotOf(s, i);
    }
  }

  lemma RepresentsIsAbs(s: State, m: Table)
    requires Shape(s) && UniqueIds(s.events) && Represents(m, s.events)
    ensures m == Abs(s)
  {
    assert m.Keys == Ids(s.events);
    forall id | id in m ensures m[id] == Abs(s)[id] {
      var i :| 0 <= i < EVENTS && Active(s.events[i]) && s.events[i].id == id;
      SlotOf(s, i);
    }
  }

  // Replacing the contents of a slot, or filling a free one, updates the
  // table at one identifier.
  lemma AbsPut(s: State, t: State, i: nat, e: Event)
    requires Shape(s) && Shape(t) && UniqueIds(s.events) && UniqueIds(t.events)
    requires i < EVENTS && t.events == s.events[i := e]
    requires Active(e) && (Active(s.events[i]) ==> s.events[i].id == e.id)
    ensures Abs(t) == Abs(s)[e.id := View(e)]
  {
    AbsRepresents(s);
    hide View;
    var m := Abs(s)[e.id := View(e)];
    assert t.events[i] == e;
    forall id | id in m ensures id in Ids(t.events) {
      if id != e.id {
        var k :| 0 <= k < EVENTS && Active(s.events[k]) && s.events[k].id == id;
        assert t.events[k].id == id;
      }
    }
    forall k | 0 <= k < EVENTS && Active(t.events[k])
      ensures t.events[k].id in m && m[t.events[k].id] == View(t.events[k])
    {
      if k != i {
        assert t.events[k] == s.events[k];
        assert t.events[k].id != e.id;
      }
    }
    RepresentsIsAbs(t, m);
  }

  lemma AbsRemove(s: State, t: State, i: nat, e: Event)
    requires Shape(s) && Shape(t) && UniqueIds(s.events) && UniqueIds(t.events)
    requires i < EVENTS && t.events == s.events[i := e] && Active(s.events[i]) && !Active(e)
    ensures Abs(t) == Abs(s) - {s.events[i].id}
  {
    AbsRepresents(s);
    hide View;
    var m := Abs(s) - {s.events[i].id};
    forall id | id in m ensures id in Ids(t.events) {
      var k :| 0 <= k < EVENTS && Active(s.events[k]) && s.events[k].id == id;
      assert t.events[k].id == id;
    }
    forall k | 0 <= k < EVENTS && Active(t.events[k])
      ensures t.events[k].id in m && m[t.events[k].id] == View(t.events[k])
    {
      assert k != i && t.events[k] == s.events[k];
    }
    RepresentsIsAbs(t, m);
  }

  lemma IdsStep(es: seq<Event>)
    requires es != [] && UniqueIds(es)
    ensures var n := |es| - 1;
      && UniqueIds(es[..n])
      && n !in ActiveSlots(es[..n])
      && ActiveSlots(es) == ActiveSlots(es[..n]) + (if Active(es[n]) then {n} else {})
      && (Active(es[n]) ==> es[n].id !in Ids(es[..n]))
      && Ids(es) == Ids(es[..n]) + (if Active(es[n]) then {es[n].id} else {})
  {
    var n := |es| - 1;
    var front := es[..n];
    assert forall i | 0 <= i < n :: front[i] == es[i];
    forall id | id in Ids(es) ensures id in Ids(front) || (Active(es[n]) && id == es[n].id) {
      var i :| 0 <= i < |es| && Active(es[i]) && es[i].id == id;
      assert i < n ==> front[i].id == id;
    }
    forall id | id in Ids(front) ensures id in Ids(es) {
      var i :| 0 <= i < n && Active(front[i]) && front[i].id == id;
      assert es[i].id == id;
    }
  }

  lemma {:induction false} IdsSize(es: seq<Event>)
    requires UniqueIds(es)
    ensures |Ids(es)| == |ActiveSlots(es)|
  {
    if es == [] {
    } else {
      IdsStep(es);
      hide Ids, ActiveSlots;
      IdsSize(es[..|es| - 1]);
    }
  }

  lemma FullIff(es: seq<Event>)
    requires |es| == EVENTS
    ensures |ActiveSlots(es)| <= EVENTS
    ensures |ActiveSlots(es)| == EVENTS <==> FreeEvent(es) == EVENTS
  {
    SubrangeSize(ActiveSlots(es), EVENTS);
    var k := FreeEvent(es);
    if k == EVENTS {
      WholeRangeSize(ActiveSlots(es), EVENTS);
    } else {
      SubrangeSize(ActiveSlots(es) + {k}, EVENTS);
    }
  }

  // The server's event counter is the size of the table, the table is never
  // larger than the slots, and it is full exactly when no slot is free.
  lemma CapacityAndCount(s: State)
    requires Inv(s)
    ensures s.eventCount == |Abs(s)| <= EVENTS
    ensures |Abs(s)| == EVENTS <==> FreeEvent(s.events) == EVENTS
  {
    hide UniqueIds, ActiveSlots, Ids, View, OnlyLive, Counted;
    IdsSize(s.events);
    FullIff(s.events);
    assert Abs(s).Keys == Ids(s.events);
  }

  // ------------------------------------------------------ the table requests

  // The buffer of a new event is whatever its slot last held, but for the
  // first byte: `junk` is that buffer.
  function NewEntry(vartype: VarType, junk: seq<byte>): Entry {
    Entry(vartype, junk, 0, {}, 0, None, None, 0, 0)
  }

  function Junk(s: State): seq<byte>
    requires Shape(s)
  {
    var k := FreeEvent(s.events);
    if k < EVENTS then s.events[k].data[0 := 0] else []
  }

  // The table in which an event is present, if it is or can be made to be.
  function Ensured(m: Table, id: Id, force: bool, vartype: VarType, junk: seq<byte>): (r: Option<Table>)
    ensures r.Some? ==> id in r.value
  {
    if id in m then Some(m)
    else if force && |m| < EVENTS then Some(m[id := NewEntry(vartype, junk)])
    else None
  }

  function TSubscribe(m: Table, c: ClientIx, id: Id, flags: Flags, junk: seq<byte>): Table {
    match Ensured(m, id, flags.force, flags.vartype, junk)
    case None => m
    case Some(n) =>
      if Compatible(n[id].vartype, flags.vartype) then n[id := n[id].(subs := n[id].subs + {c})] else n
  }

  function TUnsubscribe(m: Table, c: ClientIx, id: Id): Table {
    if id in m then m[id := m[id].(subs := m[id].subs - {c})] else m
  }

  function TDefine(m: Table, id: Id, flags: Flags, data: Option<seq<byte>>, size: nat, junk: seq<byte>): Table {
    if id in m && !flags.force then m
    else match Ensured(m, id, true, VAR_UNDEFINED, junk)
      case None => m
      case Some(n) =>
        var k := DefinedSize(flags, size);
        n[id := n[id].(vartype := flags.vartype, size := k,
                       data := if data.Some? && |data.value| >= k
                               then Overwrite(n[id].data, data.value[..k]) else n[id].data)]
  }

  // An event with the writer it has from now on: a client, or the server's own
  // program.
  function By(n: Entry, writer: Option<ClientIx>): Entry {
    if n.producer == writer then n
    else n.(producer := writer, writers := (n.writers + 1) % 0x1_0000_0000)
  }

  function TWrite(m: Table, c: ClientIx, id: Id, flags: Flags, data: seq<byte>, stamp: Word, junk: seq<byte>): Table {
    match Ensured(m, id, flags.force, flags.vartype, junk)
    case None => m
    case Some(n) =>
      if flags.vartype != n[id].vartype then n
      else
        n[id := By(n[id], Some(c)).(data := Overwrite(n[id].data, data), size := |data|, stamp := stamp,
                                    count := (n[id].count + 1) % 0x1_0000_0000)]
  }

  // The write takes effect: the event is there or can be created, and has the
  // written type.
  predicate WriteAccepted(m: Table, id: Id, flags: Flags) {
    if id in m then m[id].vartype == flags.vartype else flags.force && |m| < EVENTS
  }

  function TServerWrite(m: Table, id: Id, flags: Flags, data: seq<byte>, junk: seq<byte>): Table {
    match Ensured(m, id, flags.force, VAR_UNDEFINED, junk)
    case None => m
    case Some(n) => n[id := By(n[id], None).(data := Overwrite(n[id].data, data), size := |data|)]
  }

  // A client that goes away leaves every event.
  function TLeave(m: Table, c: ClientIx): Table {
    map id | id in m :: m[id].(subs := m[id].subs - {c})
  }

  // ------------------------------------------------------------- refinement

  lemma BuffersSized(s: State)
    requires Shape(s)
    ensures forall id | id in Abs(s) :: |Abs(s)[id].data| == DATA_SIZE && Abs(s)[id].size <= DATA_SIZE
    ensures FreeEvent(s.events) < EVENTS ==> |Junk(s)| == DATA_SIZE
  {
  }

  // What the table says about the outcome of looking for or making an event.
  lemma ObtainRefines(s: State, id: Id, force: bool, vartype: VarType)
    requires Inv(s) && Named(id)
    ensures var o := Obtain(s, id, force, vartype);
            var r := Ensured(Abs(s), id, force, vartype, Junk(s));
      && Inv(o.s)
      && (o.code == 0 <==> r.Some?)
      && (r.Some? ==> o.s.events[o.slot].id == id && Abs(o.s) == r.value && Abs(o.s)[id] == View(o.s.events[o.slot]))
      && (r.None? ==> o.s == s && o.code == if force then -2 else -1)
      && o.s.clients == s.clients && o.s.counter == s.counter && o.s.offset == s.offset && o.s.channels == s.channels
  {
    ObtainKeepsInv(s, id, force, vartype);
    Lookup(s, id);
    CapacityAndCount(s);
    var o := Obtain(s, id, force, vartype);
    if o.code == 0 {
      if FindEvent(s.events, id) == EVENTS {
        FreshIsEmpty(s.events[o.slot], id, vartype);
        AbsPut(s, o.s, o.slot, o.s.events[o.slot]);
      }
      SlotOf(o.s, o.slot);
    }
  }

  // Changing what is stored in an event's slot.
  lemma PutRefines(s: State, t: State, i: nat, e: Event)
    requires Inv(s) && i < EVENTS && Active(s.events[i]) && EventShape(e)
    requires e.id == s.events[i].id && e.consumers == s.events[i].consumers
    requires Inv(t) && t.events == s.events[i := e]
    ensures Abs(t) == Abs(s)[e.id := View(e)]
  {
    AbsPut(s, t, i, e);
  }

  lemma SubscribeRefines(s: State, c: ClientIx, id: Id, flags: Flags, presented: Word)
    requires Inv(s) && Live(s, c) && Named(id)
    ensures var r := Subscribed(s, c, id, flags, presented);
            var m := TSubscribe(Abs(s), c, id, flags, Junk(s));
      && Inv(r.s) && Abs(r.s) == m && r.s.counter == s.counter
      && (r.code == 0 <==> id in m && c in m[id].subs && Compatible(m[id].vartype, flags.vartype))
      && r.out == if r.code == 0 && presented < m[id].stamp then Emit(s, c, Resend(id, Value(m[id]))) else []
  {
    hide EventsOk, OnlyLive, Counted, UniqueChannels, UniqueAddrs, Abs, Obtain, AddConsumer, Subs, Junk, Compatible;
    ObtainRefines(s, id, flags.force, flags.vartype);
    var o := Obtain(s, id, flags.force, flags.vartype);
    if o.code == 0 && Compatible(o.s.events[o.slot].vartype, flags.vartype) {
      AddKeepsInv(o.s, o.slot, c);
      var t := AddConsumer(o.s, o.slot, c).0;
      AddRefines(o.s, t, o.slot, t.events[o.slot], c);
      EmitSame(o.s, t, c);
    }
  }

  // The type rule of a subscription, with the wire's own numbers: it is
  // refused exactly when the types differ and neither is 0xf, which stands for
  // any type.
  lemma RefusedByTypeIff(s: State, c: ClientIx, id: Id, flags: Flags, presented: Word)
    requires Inv(s) && Live(s, c) && Named(id) && id in Abs(s)
    ensures var r, v := Subscribed(s, c, id, flags, presented), Abs(s)[id].vartype;
      && (r.code == -3 <==> flags.vartype != v && flags.vartype != 0xf && v != 0xf)
      && (r.code != -3 ==> r.code == 0 && id in Abs(r.s) && c in Abs(r.s)[id].subs)
  {
    hide EventsOk, OnlyLive, Counted, UniqueChannels, UniqueAddrs, Abs, AddConsumer, Junk;
    SubscribeRefines(s, c, id, flags, presented);
    Lookup(s, id);
  }

  // So a subscriber without a type of its own is granted every event there
  // is, and an event without one grants everybody.
  lemma AnyTypeIsGranted(s: State, c: ClientIx, id: Id, flags: Flags, presented: Word)
    requires Inv(s) && Live(s, c) && Named(id) && id in Abs(s)
    requires flags.vartype == 0xf || Abs(s)[id].vartype == 0xf
    ensures var t := Subscribed(s, c, id, flags, presented).s; id in Abs(t) && c in Abs(t)[id].subs
  {
    hide Inv, Live, Abs, Subscribed;
    RefusedByTypeIff(s, c, id, flags, presented);
  }

  // And one that does not exist is created when that is forced and there is
  // room; the two other refusals.
  lemma RefusedByRoomIff(s: State, c: ClientIx, id: Id, flags: Flags, presented: Word)
    requires Inv(s) && Live(s, c) && Named(id) && id !in Abs(s)
    ensures var r := Subscribed(s, c, id, flags, presented);
      && (r.code == -1 <==> !flags.force)
      && (r.code == -2 <==> flags.force && |Abs(s)| == 256)
      && (r.code == 0 <==> flags.force && |Abs(s)| < 256)
      && (r.code == 0 ==> id in Abs(r.s) && Abs(r.s)[id].subs == {c} && Abs(r.s)[id].vartype == flags.vartype)
  {
    hide EventsOk, OnlyLive, Counted, UniqueChannels, UniqueAddrs, Abs, AddConsumer, Junk;
    SubscribeRefines(s, c, id, flags, presented);
    ObtainRefines(s, id, flags.force, flags.vartype);
    CapacityAndCount(s);
  }

  // Sends depend on the client's socket only.
  lemma EmitSame(s: State, t: State, c: ClientIx)
    requires Shape(s) && Shape(t) && t.clients[c].socket == s.clients[c].socket
    ensures forall msg :: Emit(t, c, msg) == Emit(s, c, msg)
  {
  }

  lemma AddRefines(s: State, t: State, i: nat, e: Event, c: ClientIx)
    requires Inv(s) && Inv(t) && i < EVENTS && Active(s.events[i]) && t.events == s.events[i := e]
    requires e == s.events[i].(consumers := e.consumers, consumersCount := e.consumersCount)
    ensures Abs(t) == Abs(s)[e.id := Abs(s)[e.id].(subs := Subs(e))]
  {
    AbsPut(s, t, i, e);
    SlotOf(s, i);
  }

  lemma RemoveRefines(s: State, i: nat, c: ClientIx)
    requires Inv(s) && i < EVENTS && Active(s.events[i]) && Live(s, c)
    ensures Inv(RemoveConsumer(s, i, c))
    ensures Abs(RemoveConsumer(s, i, c)) == TUnsubscribe(Abs(s), c, s.events[i].id)
  {
    hide EventsOk, OnlyLive, Counted, UniqueChannels, UniqueAddrs, Abs, RemoveConsumer, Subs;
    RemoveKeepsInv(s, i, c);
    var t := RemoveConsumer(s, i, c);
    AddRefines(s, t, i, t.events[i], c);
    SlotIds(s, i);
  }

  lemma SlotIds(s: State, i: nat)
    requires Inv(s) && i < EVENTS && Active(s.events[i])
    ensures s.events[i].id in Abs(s) && Abs(s)[s.events[i].id] == View(s.events[i])
  {
    SlotOf(s, i);
  }

  lemma UnsubscribeRefines(s: State, c: ClientIx, id: Id)
    requires Inv(s) && Live(s, c) && Named(id)
    ensures var r := Unsubscribed(s, c, id);
      Inv(r.s) && Abs(r.s) == TUnsubscribe(Abs(s), c, id) && r.out == [] && r.s.counter == s.counter
  {
    hide EventsOk, OnlyLive, Counted, UniqueChannels, UniqueAddrs, Abs, Subs;
    Lookup(s, id);
    var i := FindEvent(s.events, id);
    if i < EVENTS {
      RemoveRefines(s, i, c);
    }
  }

  lemma DefineRefines(s: State, id: Id, flags: Flags, data: Option<seq<byte>>, size: nat)
    requires Inv(s) && Named(id)
    requires data.Some? ==> |data.value| >= DefinedSize(flags, size)
    ensures var r := Defined(s, id, flags, data, size);
      && Inv(r.s) && Abs(r.s) == TDefine(Abs(s), id, flags, data, size, Junk(s))
      && r.out == [] && r.s.counter == s.counter
      && (r.code == 0 <==> if id in Abs(s) then flags.force else |Abs(s)| < EVENTS)
  {
    hide EventsOk, OnlyLive, Counted, UniqueChannels, UniqueAddrs, Abs, Subs, Obtain, Junk;
    DefineKeepsInv(s, id, flags, data, size);
    ObtainRefines(s, id, true, VAR_UNDEFINED);
    Lookup(s, id);
    CapacityAndCount(s);
    var o := Obtain(s, id, true, VAR_UNDEFINED);
    var r := Defined(s, id, flags, data, size);
    if r.code == 0 {
      var e := r.s.events[o.slot];
      PutRefines(o.s, r.s, o.slot, e);
      ViewWith(o.s.events[o.slot], e);
    }
  }

  lemma ViewWith(e: Event, e': Event)
    requires e'.consumers == e.consumers
    ensures View(e') == Entry(e'.vartype, e'.data, e'.size, View(e).subs, e'.stamp, e'.producer, e'.callback,
                             e'.count, e'.producersCount)
  {
  }

  lemma UndefineRefines(s: State, id: Id)
    requires Inv(s) && Named(id)
    ensures var r := Undefined(s, id);
      Inv(r.s) && Abs(r.s) == Abs(s) - {id} && r.out == [] && r.s.counter == s.counter
  {
    UndefineKeepsInv(s, id);
    Lookup(s, id);
    var i := FindEvent(s.events, id);
    if i < EVENTS {
      AbsRemove(s, FreeSlot(s, id), i, s.events[i].(id := s.events[i].id.(w0 := MARKER)));
    } else {
      assert Abs(s) - {id} == Abs(s);
    }
  }

  // A read answers with the stored bytes, to the reader alone, and changes
  // nothing.
  lemma ReadRefines(s: State, c: ClientIx, id: Id)
    requires Inv(s) && Live(s, c) && Named(id)
    ensures var m := Abs(s);
      ReadBy(s, c, id) == Result(s, [Sent(c, if id in m then ReadReply(id, m[id].vartype, Value(m[id]))
                                             else ReadReply(id, VAR_UNDEFINED, []))], 0)
  {
    Lookup(s, id);
    hide Abs, EventsOk, OnlyLive, Counted;
    LiveGets(s, c);
  }

  lemma LiveGets(s: State, c: ClientIx)
    requires Inv(s) && Live(s, c)
    ensures forall msg :: Emit(s, c, msg) == [Sent(c, msg)]
  {
  }

  // ----------------------------------------------------------------- fan-out

  // One message to each of a set of clients but one.
  function Deliveries(subs: set<nat>, skip: Option<ClientIx>, msg: Message): set<Output> {
    set d: ClientIx | d < CLIENTS && d in subs && Some(d) != skip :: Sent(d, msg)
  }

  lemma FanStep(s: State, consumers: seq<Option<ClientIx>>, skip: Option<ClientIx>, msg: Message)
    requires Shape(s) && consumers != [] && SocketsOk(s.clients)
    requires forall d: ClientIx | Some(d) in consumers :: Live(s, d)
    ensures var n := |consumers| - 1; var last := consumers[n];
      Fan(s, consumers, skip, msg)
      == Fan(s, consumers[..n], skip, msg) + if last.None? || last == skip then [] else [Sent(last.value, msg)]
  {
    var last := consumers[|consumers| - 1];
    if last.Some? {
      assert last in consumers && Live(s, last.value);
    }
  }

  lemma LastOnce(consumers: seq<Option<ClientIx>>, d: ClientIx)
    requires consumers != [] && Distinct(consumers)
    ensures var n := |consumers| - 1;
      && Distinct(consumers[..n])
      && (Some(d) in consumers <==> Some(d) in consumers[..n] || consumers[n] == Some(d))
      && !(Some(d) in consumers[..n] && consumers[n] == Some(d))
  {
    var n := |consumers| - 1;
    assert consumers == consumers[..n] + [consumers[n]];
  }

  // The walk over the consumer slots delivers to each pointer once.
  lemma {:induction false} FanOnce(s: State, consumers: seq<Option<ClientIx>>, skip: Option<ClientIx>, msg: Message,
      o: Output)
    requires Shape(s) && Distinct(consumers) && SocketsOk(s.clients)
    requires forall d: ClientIx | Some(d) in consumers :: Live(s, d)
    ensures multiset(Fan(s, consumers, skip, msg))[o]
         == if o.Sent? && o.msg == msg && Some(o.to) in consumers && Some(o.to) != skip then 1 else 0
  {
    if consumers == [] {
    } else {
      hide Distinct, Live;
      var n := |consumers| - 1;
      LastOnce(consumers, if o.Sent? then o.to else 0);
      FanStep(s, consumers, skip, msg);
      FanOnce(s, consumers[..n], skip, msg, o);
    }
  }

  lemma FanExactlyOnce(s: State, e: Event, skip: Option<ClientIx>, msg: Message)
    requires Shape(s) && EventShape(e) && SocketsOk(s.clients) && Distinct(e.consumers)
    requires forall d: ClientIx | Some(d) in e.consumers :: Live(s, d)
    ensures multiset(Fan(s, e.consumers, skip, msg)) == multiset(Deliveries(Subs(e), skip, msg))
  {
    forall o ensures multiset(Fan(s, e.consumers, skip, msg))[o] == multiset(Deliveries(Subs(e), skip, msg))[o] {
      FanOnce(s, e.consumers, skip, msg, o);
      assert o in Deliveries(Subs(e), skip, msg)
        <==> o.Sent? && o.msg == msg && Some(o.to) in e.consumers && Some(o.to) != skip;
    }
  }

  // What the outside sees of a write that is accepted: the hook is called
  // once, and every subscriber gets one event with the written bytes, except
  // the writer itself when it did not ask for an echo.
  function WriteOutputs(n: Entry, id: Id, skip: Option<ClientIx>, sync: Option<SyncData>,
      called: bool): multiset<Output>
  {
    (if called && n.callback.Some? then multiset{Called(n.callback.value, id, Value(n))} else multiset{})
    + multiset(Deliveries(n.subs, skip, Notify(id, n.vartype, sync, Value(n))))
  }

  lemma SendEventOnce(s: State, i: nat, flags: Flags, now: Time)
    requires Inv(s) && i < EVENTS && Active(s.events[i])
    ensures var e := s.events[i];
      multiset(SendEvent(s, e, flags, now))
      == multiset(Deliveries(Subs(e), if flags.echo then None else e.producer,
                             NotifyOf(s, e, flags.sync, now)))
  {
    var e := s.events[i];
    forall d: ClientIx | Some(d) in e.consumers ensures Live(s, d) {
    }
    FanExactlyOnce(s, e, if flags.echo then None else e.producer, NotifyOf(s, e, flags.sync, now));
  }

  // The slot of a write that is taken, and what goes out for it.
  lemma WriteStored(s: State, c: ClientIx, id: Id, flags: Flags, data: seq<byte>, now: Time)
    requires Inv(s) && Named(id) && |data| <= DATA_SIZE
    ensures var r := Written(s, c, id, flags, data, now);
            var i := Obtain(s, id, flags.force, flags.vartype).slot;
            var m := TWrite(Abs(s), c, id, flags, data, s.counter, Junk(s));
            var ok := WriteAccepted(Abs(s), id, flags);
      && Inv(r.s) && Abs(r.s) == m && r.s.offset == s.offset
      && (r.code == 0 <==> ok)
      && r.s.counter == (if ok then (s.counter + 1) % 0x1_0000_0000_0000_0000 else s.counter)
      && (!ok ==> r.out == [])
      && (ok ==>
            && i < EVENTS && Active(r.s.events[i]) && r.s.events[i].id == id
            && id in m && m[id] == View(r.s.events[i]) && Value(m[id]) == data
            && m[id].vartype == flags.vartype && m[id].producer == Some(c)
            && r.out == (if m[id].callback.Some? then [Called(m[id].callback.value, id, data)] else [])
                        + SendEvent(r.s, r.s.events[i], flags, now))
  {
    hide EventsOk, OnlyLive, Counted, UniqueChannels, UniqueAddrs, SocketsOk, Abs, Subs, Obtain, Junk, SendEvent;
    WriteKeepsInv(s, c, id, flags, data, now);
    ObtainRefines(s, id, flags.force, flags.vartype);
    CapacityAndCount(s);
    var o := Obtain(s, id, flags.force, flags.vartype);
    if o.code == 0 && flags.vartype == o.s.events[o.slot].vartype {
      var e := Stored(o.s, o.s.events[o.slot], c, data);
      var t := Written(s, c, id, flags, data, now).s;
      PutRefines(o.s, t, o.slot, e);
      ViewWith(o.s.events[o.slot], e);
    }
  }

  lemma WriteRefines(s: State, c: ClientIx, id: Id, flags: Flags, data: seq<byte>, now: Time)
    requires Inv(s) && Named(id) && |data| <= DATA_SIZE
    ensures var r := Written(s, c, id, flags, data, now);
            var m := TWrite(Abs(s), c, id, flags, data, s.counter, Junk(s));
            var ok := WriteAccepted(Abs(s), id, flags);
      && Inv(r.s) && Abs(r.s) == m
      && (r.code == 0 <==> ok)
      && r.s.counter == (if ok then (s.counter + 1) % 0x1_0000_0000_0000_0000 else s.counter)
      && (ok ==> id in m && Value(m[id]) == data && m[id].vartype == flags.vartype)
      && (ok ==> multiset(r.out) == WriteOutputs(m[id], id, if flags.echo then None else Some(c),
                                                 if flags.sync then Some(Stamp(now, s.offset)) else None, true))
      && (!ok ==> r.out == [])
  {
    hide EventsOk, OnlyLive, Counted, UniqueChannels, UniqueAddrs, SocketsOk, Abs, Subs, Obtain, Junk, SendEvent;
    hide Deliveries, TWrite, Written, WriteAccepted, Stamp;
    WriteStored(s, c, id, flags, data, now);
    if WriteAccepted(Abs(s), id, flags) {
      var r, i := Written(s, c, id, flags, data, now), Obtain(s, id, flags.force, flags.vartype).slot;
      SendEventOnce(r.s, i, flags, now);
      NoteOf(r.s, r.s.events[i], flags.sync, now);
    }
  }

  lemma NoteOf(s: State, e: Event, sync: bool, now: Time)
    requires EventShape(e)
    ensures NotifyOf(s, e, sync, now)
         == Notify(e.id, View(e).vartype, if sync then Some(Stamp(now, s.offset)) else None, Value(View(e)))
  {
  }

  // A write by the server's own program excludes nobody and calls no hook.
  lemma ServerWriteRefines(s: State, id: Id, flags: Flags, data: seq<byte>, size: nat, now: Time)
    requires Inv(s) && Named(id)
    requires ServerSize(flags, size) <= |data| && size <= DATA_SIZE
    ensures var r := WrittenByServer(s, id, flags, data, size, now);
            var n := data[..ServerSize(flags, size)];
            var m := TServerWrite(Abs(s), id, flags, n, Junk(s));
            var ok := id in Abs(s) || (flags.force && |Abs(s)| < EVENTS);
      && Inv(r.s) && Abs(r.s) == m && r.s.counter == s.counter
      && (r.code == 0 <==> ok)
      && (ok ==> id in m && Value(m[id]) == n)
      && (ok ==> multiset(r.out) == WriteOutputs(m[id], id, None,
                                                 if flags.sync then Some(Stamp(now, s.offset)) else None, false))
      && (!ok ==> r.out == [])
  {
    hide EventsOk, OnlyLive, Counted, UniqueChannels, UniqueAddrs, Abs, Subs, Obtain, Junk, SendEvent, Deliveries;
    ServerWriteKeepsInv(s, id, flags, data, size, now);
    ObtainRefines(s, id, flags.force, VAR_UNDEFINED);
    CapacityAndCount(s);
    var o := Obtain(s, id, flags.force, VAR_UNDEFINED);
    if o.code == 0 {
      var t := WrittenByServer(s, id, flags, data, size, now).s;
      var e := t.events[o.slot];
      PutRefines(o.s, t, o.slot, e);
      ViewWith(o.s.events[o.slot], e);
      SendEventOnce(t, o.slot, flags, now);
    }
  }

  function THook(m: Table, id: Id, force: bool, callback: nat, junk: seq<byte>): Table {
    match Ensured(m, id, force, VAR_UNDEFINED, junk)
    case None => m
    case Some(n) => n[id := n[id].(callback := Some(callback))]
  }

  function TUnhook(m: Table, id: Id): Table {
    if id in m then m[id := m[id].(callback := None)] else m
  }

  lemma HookRefines(s: State, id: Id, force: bool, callback: nat)
    requires Inv(s) && Named(id)
    ensures var r := Hooked(s, id, force, callback);
      && Inv(r.s) && Abs(r.s) == THook(Abs(s), id, force, callback, Junk(s)) && r.out == [] && r.s.counter == s.counter
      && (r.code == 0 <==> id in Abs(s) || (force && |Abs(s)| < EVENTS))
  {
    hide EventsOk, OnlyLive, Counted, UniqueChannels, UniqueAddrs, Abs, Subs, Obtain, Junk;
    HookKeepsInv(s, id, force, callback);
    ObtainRefines(s, id, force, VAR_UNDEFINED);
    var o := Obtain(s, id, force, VAR_UNDEFINED);
    if o.code == 0 {
      var e := o.s.events[o.slot].(callback := Some(callback));
      PutRefines(o.s, PutEvent(o.s, o.slot, e), o.slot, e);
      ViewWith(o.s.events[o.slot], e);
    }
  }

  lemma UnhookRefines(s: State, id: Id)
    requires Inv(s) && Named(id)
    ensures var r := Unhooked(s, id);
      Inv(r.s) && Abs(r.s) == TUnhook(Abs(s), id) && r.out == [] && r.s.counter == s.counter
  {
    hide EventsOk, OnlyLive, Counted, UniqueChannels, UniqueAddrs, Abs, Subs;
    HookKeepsInv(s, id, false, 0);
    Lookup(s, id);
    var i := FindEvent(s.events, id);
    if i < EVENTS {
      var e := s.events[i].(callback := None);
      PutRefines(s, PutEvent(s, i, e), i, e);
      ViewWith(s.events[i], e);
    }
  }

  // A client that goes away is off every event and owns no channel; the rest
  // of the table stays.
  lemma CloseRefines(s: State, c: ClientIx)
    requires Inv(s) && Live(s, c)
    ensures var t := CloseClient(s, c);
      && Inv(t) && Abs(t) == TLeave(Abs(s), c) && t.counter == s.counter && !Live(t, c)
      && (forall i | 0 <= i < CHANNELS && Open(t.channels[i]) :: t.channels[i].producer != Some(c))
      && (forall i | 0 <= i < CHANNELS && Open(s.channels[i]) && s.channels[i].producer != Some(c) ::
            t.channels[i] == s.channels[i])
  {
    CloseKeepsInv(s, c);
    var t := CloseClient(s, c);
    AbsRepresents(s);
    hide Subs, EventOk, OnlyLive, Counted, Abs, CloseClient;
    var m := TLeave(Abs(s), c);
    forall id | id in m ensures id in Ids(t.events) {
      var k :| 0 <= k < EVENTS && Active(s.events[k]) && s.events[k].id == id;
      assert t.events[k].id == id;
    }
    forall k | 0 <= k < EVENTS && Active(t.events[k])
      ensures t.events[k].id in m && m[t.events[k].id] == View(t.events[k])
    {
      assert Active(s.events[k]);
    }
    RepresentsIsAbs(t, m);
  }

  lemma SameEventsSameTable(s: State, t: State)
    requires Shape(s) && Shape(t) && t.events == s.events
    ensures Abs(t) == Abs(s)
  {
  }

  lemma GreetRefines(s: State, c: ClientIx, id: Id, major: U32, minor: U32)
    requires Inv(s) && Live(s, c)
    ensures var r := Greeted(s, c, id, major, minor);
      && Inv(r.s) && r.s.counter == s.counter
      && Abs(r.s) == (if major == MAJOR then Abs(s) else TLeave(Abs(s), c))
      && (Live(r.s, c) <==> major == MAJOR)
      && r.out == [Sent(c, Status(if major == MAJOR then 0 else 1))]
  {
    hide EventsOk, OnlyLive, Counted, UniqueChannels, UniqueAddrs, Abs, CloseClient;
    GreetKeepsInv(s, c, id, major, minor);
    LiveGets(s, c);
    if major != MAJOR {
      CloseRefines(s, c);
      SameEventsSameTable(CloseClient(s, c), Greeted(s, c, id, major, minor).s);
    } else {
      SameEventsSameTable(s, Greeted(s, c, id, major, minor).s);
    }
  }
}
