// Disconnection and return: what a client is subscribed to after it has
// connected again and repeated its subscriptions.
module BrokerReconnect {
  import opened Bytes
  import opened Headers
  import opened Broker
  import opened BrokerInvariant
  import opened BrokerTable

  // One subscription that a client repeats, with the stamp it presents.
  datatype Want = Want(id: Id, flags: Flags, counter: Word)

  predicate DistinctWants(wants: seq<Want>) {
    && (forall k | 0 <= k < |wants| :: Named(wants[k].id))
    && (forall j, k | 0 <= j < k < |wants| :: wants[j].id != wants[k].id)
  }

  function Replayed(s: State, c: ClientIx, wants: seq<Want>): (t: State)
    requires Shape(s)
    ensures Shape(t)
  {
    if wants == [] then s
    else
      var w := wants[|wants| - 1];
      Subscribed(Replayed(s, c, wants[..|wants| - 1]), c, w.id, w.flags, w.counter).s
  }

  // How many of the wants would have to be, and may be, created.
  function ToCreate(m: Table, wants: seq<Want>): nat {
    if wants == [] then 0
    else
      var w := wants[|wants| - 1];
      ToCreate(m, wants[..|wants| - 1]) + if w.id !in m && w.flags.force then 1 else 0
  }

  // A want is granted by a table: the event is there with a compatible type,
  // or it may be created and there is room left after those before it.
  predicate Granted(m: Table, wants: seq<Want>, k: nat)
    requires k < |wants|
  {
    var w := wants[k];
    if w.id in m then Compatible(m[w.id].vartype, w.flags.vartype)
    else w.flags.force && |m| + ToCreate(m, wants[..k]) < EVENTS
  }

  function GrantedIds(m: Table, wants: seq<Want>): set<Id> {
    set k | 0 <= k < |wants| && Granted(m, wants, k) :: wants[k].id
  }

  lemma GrantedStep(m: Table, wants: seq<Want>)
    requires wants != [] && DistinctWants(wants)
    ensures var n := |wants| - 1;
            var front := wants[..n];
      && DistinctWants(front)
      && GrantedIds(m, wants) == GrantedIds(m, front) + (if Granted(m, wants, n) then {wants[n].id} else {})
      && wants[n].id !in GrantedIds(m, front)
  {
    hide Granted;
    var n := |wants| - 1;
    var front := wants[..n];
    forall k | 0 <= k < n ensures Granted(m, front, k) <==> Granted(m, wants, k) {
      SameGrant(m, wants, n, k);
    }
    forall id | id in GrantedIds(m, wants)
      ensures id in GrantedIds(m, front) + if Granted(m, wants, n) then {wants[n].id} else {}
    {
      var k :| 0 <= k < |wants| && Granted(m, wants, k) && wants[k].id == id;
      assert k < n ==> front[k].id == id && Granted(m, front, k);
    }
    forall id | id in GrantedIds(m, front) ensures id in GrantedIds(m, wants) && id != wants[n].id {
      var k :| 0 <= k < n && Granted(m, front, k) && front[k].id == id;
      assert wants[k].id == id && Granted(m, wants, k);
    }
  }

  lemma SameGrant(m: Table, wants: seq<Want>, n: nat, k: nat)
    requires k < n <= |wants|
    ensures Granted(m, wants[..n], k) <==> Granted(m, wants, k)
  {
    assert wants[..n][..k] == wants[..k];
  }

  // An entry of the table after the replay.
  ghost predicate EntryReplayed(m: Table, id: Id, e: Entry, c: ClientIx, granted: bool) {
    && e.subs == (if id in m then m[id].subs else {}) + (if granted then {c} else {})
    && (id in m ==> e == m[id].(subs := e.subs))
  }

  ghost predicate SubsReplayed(m: Table, n: Table, c: ClientIx, g: set<Id>) {
    && n.Keys == m.Keys + g
    && forall id | id in n :: EntryReplayed(m, id, n[id], c, id in g)
  }

  // The table after some wants: the granted ones are subscriptions, and as
  // much as there was room for has been created.
  ghost predicate Replay(m: Table, n: Table, c: ClientIx, wants: seq<Want>) {
    && SubsReplayed(m, n, c, GrantedIds(m, wants))
    && |n| == (if |m| + ToCreate(m, wants) < EVENTS then |m| + ToCreate(m, wants) else EVENTS)
  }

  // What one more want does to the table.
  function Taken(m: Table, n: Table, c: ClientIx, w: Want, granted: bool, junk: seq<byte>): Table {
    if !granted then n
    else n[w.id := if w.id in n then n[w.id].(subs := n[w.id].subs + {c})
                   else NewEntry(w.flags.vartype, junk).(subs := {c})]
  }

  lemma SubscribedNew(n: Table, c: ClientIx, w: Want, junk: seq<byte>)
    requires w.id !in n
    ensures TSubscribe(n, c, w.id, w.flags, junk)
         == if w.flags.force && |n| < EVENTS then n[w.id := NewEntry(w.flags.vartype, junk).(subs := {c})] else n
  {
    assert {} + {c as nat} == {c};
  }

  lemma WantTaken(m: Table, n: Table, c: ClientIx, wants: seq<Want>, g: set<Id>, junk: seq<byte>)
    requires wants != [] && SubsReplayed(m, n, c, g) && wants[|wants| - 1].id !in g
    requires var before := |m| + ToCreate(m, wants[..|wants| - 1]); |n| == if before < EVENTS then before else EVENTS
    ensures var w := wants[|wants| - 1];
      TSubscribe(n, c, w.id, w.flags, junk) == Taken(m, n, c, w, Granted(m, wants, |wants| - 1), junk)
  {
    hide ToCreate, Compatible;
    var w := wants[|wants| - 1];
    if w.id in n {
      assert EntryReplayed(m, w.id, n[w.id], c, w.id in g);
      hide SubsReplayed;
    } else {
      hide SubsReplayed, TSubscribe;
      SubscribedNew(n, c, w, junk);
    }
  }

  lemma TakenKeeps(m: Table, n: Table, c: ClientIx, w: Want, granted: bool, g: set<Id>, junk: seq<byte>)
    requires SubsReplayed(m, n, c, g) && w.id !in g
    ensures SubsReplayed(m, Taken(m, n, c, w, granted, junk), c, g + if granted then {w.id} else {})
  {
    var n' := Taken(m, n, c, w, granted, junk);
    var g' := g + if granted then {w.id} else {};
    assert n'.Keys == m.Keys + g';
    forall id | id in n' ensures EntryReplayed(m, id, n'[id], c, id in g') {
      assert id in n ==> EntryReplayed(m, id, n[id], c, id in g);
    }
  }

  lemma TakenSize(m: Table, n: Table, c: ClientIx, w: Want, granted: bool, junk: seq<byte>)
    ensures |Taken(m, n, c, w, granted, junk)| == |n| + if granted && w.id !in n then 1 else 0
  {
    var n' := Taken(m, n, c, w, granted, junk);
    assert n'.Keys == n.Keys + if granted then {w.id} else {};
    assert |n'| == |n'.Keys| && |n| == |n.Keys|;
  }

  // A want that has to be created is granted while there is room.
  lemma RoomStep(m: Table, n: Table, wants: seq<Want>, g: set<Id>)
    requires wants != [] && |m| <= EVENTS && n.Keys == m.Keys + g && wants[|wants| - 1].id !in g
    requires var before := |m| + ToCreate(m, wants[..|wants| - 1]); |n| == if before < EVENTS then before else EVENTS
    ensures var after := |m| + ToCreate(m, wants);
            var k := |wants| - 1;
      |n| + (if Granted(m, wants, k) && wants[k].id !in n then 1 else 0) == if after < EVENTS then after else EVENTS
  {
    hide Compatible;
  }

  lemma ReplayStep(m: Table, n: Table, c: ClientIx, wants: seq<Want>, junk: seq<byte>)
    requires wants != [] && DistinctWants(wants) && |m| <= EVENTS
    requires Replay(m, n, c, wants[..|wants| - 1])
    ensures var w := wants[|wants| - 1]; Replay(m, TSubscribe(n, c, w.id, w.flags, junk), c, wants)
  {
    hide DistinctWants, GrantedIds, TSubscribe, EntryReplayed, Taken, SubsReplayed, Granted;
    var k := |wants| - 1;
    var w, g := wants[k], GrantedIds(m, wants[..k]);
    GrantedStep(m, wants);
    WantTaken(m, n, c, wants, g, junk);
    TakenKeeps(m, n, c, w, Granted(m, wants, k), g, junk);
    TakenSize(m, n, c, w, Granted(m, wants, k), junk);
    KeysReplayed(m, n, c, g);
    RoomStep(m, n, wants, g);
  }

  lemma KeysReplayed(m: Table, n: Table, c: ClientIx, g: set<Id>)
    requires SubsReplayed(m, n, c, g)
    ensures n.Keys == m.Keys + g
  {
  }

  lemma {:induction false} ReplayedTable(s: State, c: ClientIx, wants: seq<Want>)
    requires Inv(s) && Live(s, c) && DistinctWants(wants)
    ensures var t := Replayed(s, c, wants);
      Inv(t) && Live(t, c) && Replay(Abs(s), Abs(t), c, wants)
  {
    hide EventsOk, OnlyLive, Counted, UniqueChannels, UniqueAddrs, SocketsOk, Abs, Subscribed, TSubscribe, Junk;
    hide DistinctWants;
    CapacityAndCount(s);
    if wants == [] {
      assert GrantedIds(Abs(s), wants) == {};
    } else {
      hide Replay;
      var front, w := wants[..|wants| - 1], wants[|wants| - 1];
      GrantedStep(Abs(s), wants);
      LastNamed(wants);
      ReplayedTable(s, c, front);
      var u := Replayed(s, c, front);
      SubscribeRefines(u, c, w.id, w.flags, w.counter);
      SubscribeKeepsLive(u, c, w.id, w.flags, w.counter);
      ReplayStep(Abs(s), Abs(u), c, wants, Junk(u));
    }
  }

  lemma LastNamed(wants: seq<Want>)
    requires wants != [] && DistinctWants(wants)
    ensures Named(wants[|wants| - 1].id)
  {
  }

  lemma SubscribeKeepsLive(s: State, c: ClientIx, id: Id, flags: Flags, counter: Word)
    requires Shape(s)
    ensures forall d: ClientIx :: Live(Subscribed(s, c, id, flags, counter).s, d) <==> Live(s, d)
  {
  }

  // The slot that a connection is given, and the state after it.
  function Returned(s: State, c: ClientIx, fd: nat, addr: Addr): (r: (State, ClientIx))
    requires Shape(s)
    ensures Shape(r.0)
  {
    var t := CloseClient(s, c);
    assert t.clients[c].socket == CLOSED;
    (Accepted(t, fd, addr).s, FreeClient(t.clients))
  }

  // A client that went away and came back holds exactly the subscriptions it
  // repeats that the table grants; nobody else's subscriptions change, except
  // that the ones of the old connection are gone.
  lemma ReconnectRestores(s: State, c: ClientIx, fd: nat, addr: Addr, name: Id, minor: U32, wants: seq<Want>)
    requires Inv(s) && Live(s, c) && DistinctWants(wants)
    ensures var (u, d) := Returned(s, c, fd, addr);
            var t := Replayed(Greeted(u, d, name, MAJOR, minor).s, d, wants);
            var m := TLeave(Abs(s), c);
      && Inv(t) && Live(t, d)
      && Abs(t).Keys == m.Keys + GrantedIds(m, wants)
      && (forall id | id in Abs(t) :: d in Abs(t)[id].subs <==> id in GrantedIds(m, wants))
      && (forall id, e: ClientIx | id in Abs(t) && e != d ::
            e in Abs(t)[id].subs <==> id in Abs(s) && e in Abs(s)[id].subs && e != c)
  {
    hide EventsOk, OnlyLive, Counted, UniqueChannels, UniqueAddrs, SocketsOk, Abs, CloseClient, Greeted;
    hide DistinctWants, GrantedIds;
    CloseRefines(s, c);
    var v := CloseClient(s, c);
    assert !Live(v, c);
    var (u, d) := Returned(s, c, fd, addr);
    AcceptKeepsInv(v, fd, addr);
    SameEventsSameTable(v, u);
    NewcomerHoldsNothing(v, d);
    GreetRefines(u, d, name, MAJOR, minor);
    ReplayedTable(Greeted(u, d, name, MAJOR, minor).s, d, wants);
  }

  lemma NewcomerHoldsNothing(v: State, d: ClientIx)
    requires Inv(v) && !Live(v, d)
    ensures forall id | id in Abs(v) :: d !in Abs(v)[id].subs
  {
    DeadHoldsNothing(v, d);
    forall id | id in Abs(v) ensures d !in Abs(v)[id].subs {
      assert Active(v.events[FindEvent(v.events, id)]);
    }
  }
}
