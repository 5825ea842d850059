// A read may hold several packets, and all of them go to the client that was
// live when the read began. What that asks of clients, and what goes wrong
// without it.
module BrokerLiveness {
  import opened Bytes
  import opened Headers
  import opened SyncClock
  import opened Broker
  import opened BrokerInvariant
  import opened BrokerTable
  import opened BrokerCounting

  datatype Arrival = Arrival(req: Request, now: Time)

  predicate AllBounded(arrivals: seq<Arrival>) {
    forall k | 0 <= k < |arrivals| :: Bounded(arrivals[k].req)
  }

  predicate Proper(arrivals: seq<Arrival>) {
    forall k | 0 <= k < |arrivals| :: Bounded(arrivals[k].req) && NamesOk(arrivals[k].req)
  }

  // The packets of one read, dispatched one after another.
  function Dispatched(s: State, c: ClientIx, arrivals: seq<Arrival>): (r: Result)
    requires Shape(s) && AllBounded(arrivals)
    ensures Shape(r.s)
    decreases |arrivals|
  {
    if arrivals == [] then Result(s, [], 0)
    else
      var first := Processed(s, c, arrivals[0].req, arrivals[0].now);
      var rest := Dispatched(first.s, c, arrivals[1..]);
      Result(rest.s, first.out + rest.out, 0)
  }

  // Each of them finds its client live.
  predicate ReachesLive(s: State, c: ClientIx, arrivals: seq<Arrival>)
    requires Shape(s) && Proper(arrivals)
    decreases |arrivals|
  {
    arrivals == []
    || (Live(s, c) && ReachesLive(Processed(s, c, arrivals[0].req, arrivals[0].now).s, c, arrivals[1..]))
  }

  // All packets of a read reach a live client exactly when no packet before
  // the last one is an introduction with the wrong version; the invariant
  // then holds after the whole read.
  lemma {:induction false} ReachesLiveIff(s: State, c: ClientIx, arrivals: seq<Arrival>)
    requires Inv(s) && Live(s, c) && Proper(arrivals)
    ensures ReachesLive(s, c, arrivals) <==> forall k | 0 <= k < |arrivals| - 1 :: !Rejects(arrivals[k].req)
    ensures ReachesLive(s, c, arrivals) ==> Inv(Dispatched(s, c, arrivals).s)
    decreases |arrivals|
  {
    hide EventsOk, OnlyLive, Counted, UniqueChannels, UniqueAddrs, SocketsOk, Processed, Rejects, Live;
    if arrivals == [] {
    } else {
      var t := Processed(s, c, arrivals[0].req, arrivals[0].now).s;
      ProcessKeepsInv(s, c, arrivals[0].req, arrivals[0].now);
      RequestDrift(s, c, arrivals[0].req, arrivals[0].now);
      assert Drift(t, c) == Drift(t, c);
      assert forall k | 1 <= k < |arrivals| :: arrivals[k] == arrivals[1..][k - 1];
      if !Rejects(arrivals[0].req) {
        ReachesLiveIff(t, c, arrivals[1..]);
      } else if |arrivals| > 1 {
        assert !ReachesLive(t, c, arrivals[1..]);
      } else {
        assert arrivals[1..] == [];
      }
    }
  }

  // Otherwise a subscription can be made for a client that is gone. It is
  // there when the slot is given to a new connection, which then gets events
  // that it never asked for and has a counter below what it holds.
  lemma SubscriptionOfTheGone(s: State, c: ClientIx, id: Id, flags: Flags, presented: Word, fd: nat, addr: Addr)
    requires Inv(s) && !Live(s, c) && Named(id)
    requires id in Abs(s) && Compatible(Abs(s)[id].vartype, flags.vartype)
    ensures var t := Subscribed(s, c, id, flags, presented).s;
            var u := PutClient(t, c, t.clients[c].(socket := fd, addr := addr, subscribed := 0));
      !OnlyLive(t) && Live(u, c) && id in Abs(u) && c in Abs(u)[id].subs && Drift(u, c) == -1
  {
    hide OnlyLive, Counted, UniqueChannels, UniqueAddrs, SocketsOk, Abs, Held, Distinct;
    Lookup(s, id);
    DeadHoldsNothing(s, c);
    var i := FindEvent(s.events, id);
    var e := s.events[i];
    InSubs(e, c);
    IndexInHas(e.consumers, Some(c));
    RoomForConsumer(e, c);
    var t := Subscribed(s, c, id, flags, presented).s;
    var j := IndexOf(e.consumers, None);
    assert t.events
        == s.events[i := e.(consumers := e.consumers[j := Some(c)], consumersCount := Bump(e.consumersCount))];
    assert t.events[i].consumers[j] == Some(c);
    GoneIsHeld(s, t, c, i);
    FoundAgain(s.events, t.events, id);
    Lookup(t, id);
    var u := PutClient(t, c, t.clients[c].(socket := fd, addr := addr, subscribed := 0));
    SameEventsSameTable(t, u);
  }

  lemma {:induction false} FoundAgain(es: seq<Event>, fs: seq<Event>, id: Id)
    requires |fs| == |es| && forall i | 0 <= i < |es| :: fs[i].id == es[i].id
    ensures FindEvent(fs, id) == FindEvent(es, id)
  {
    assert FindEvent(fs, id) <= FindEvent(es, id) <= FindEvent(fs, id);
  }

  lemma GoneIsHeld(s: State, t: State, c: ClientIx, i: nat)
    requires Shape(s) && Shape(t) && i < EVENTS && Active(s.events[i]) && !Live(s, c) && Holding(s.events, c) == {}
    requires t.events == s.events[i := t.events[i]] && t.events[i].id == s.events[i].id
        && Some(c) in t.events[i].consumers
    requires t.clients[c].socket == s.clients[c].socket
    ensures !OnlyLive(t) && Holding(t.events, c) == {i} && c in Subs(t.events[i])
  {
    assert Some(c) in t.events[i].consumers && !Live(t, c);
    forall k | k in Holding(t.events, c) ensures k == i {
      assert k != i ==> k in Holding(s.events, c);
    }
  }
}
