// The same return of a client, but among the steps of all others: what a
// client is subscribed to at the end of any run in which it repeats its
// subscriptions.
module BrokerInterleaving {
  import opened Bytes
  import opened Headers
  import opened Broker
  import opened BrokerInvariant
  import opened BrokerTable
  import opened BrokerRuns
  import opened BrokerCounting
  import opened BrokerReconnect

  // The subscription that an input asks for on behalf of a client.
  function Asks(sender: Option<ClientIx>, x: Input, d: ClientIx): Option<Want> {
    if sender == Some(d) && (x.Packet? || x.Datagram?) && x.req.Subscribe?
    then Some(Want(x.req.id, x.req.flags, x.req.counter)) else None
  }

  // The client gives its subscription up again.
  predicate Drops(sender: Option<ClientIx>, x: Input, d: ClientIx, id: Id) {
    sender == Some(d) && (x.Packet? || x.Datagram?) && x.req.Unsubscribe? && x.req.id == id
  }

  // The client does not leave; all others do as they like.
  predicate Stays(sender: Option<ClientIx>, x: Input, d: ClientIx) {
    && !(x.Gone? && x.c == d)
    && (sender == Some(d) && (x.Packet? || x.Datagram?) ==> !Rejects(x.req))
  }

  // A subscription is granted by the table that it finds.
  predicate GrantedNow(m: Table, w: Want) {
    if w.id in m then Compatible(m[w.id].vartype, w.flags.vartype) else w.flags.force && |m| < EVENTS
  }

  predicate Subscribes(m: Table, d: ClientIx, id: Id) {
    id in m && d in m[id].subs
  }

  lemma RequestSubs(m: Table, c: ClientIx, req: Request, counter: Word, junk: seq<byte>, d: ClientIx, id: Id)
    requires c == d ==> !Rejects(req)
    ensures var n := TRequest(m, c, req, counter, junk);
            var asked := c == d && req.Subscribe? && req.id == id && GrantedNow(m, Want(id, req.flags, req.counter));
            var dropped := c == d && req.Unsubscribe? && req.id == id;
      Subscribes(n, d, id) <==> id in n && !dropped && (Subscribes(m, d, id) || asked)
  {
    hide Overwrite, DefinedSize, Compatible;
    if req.Subscribe? {
      SubscribeSubs(m, c, req.id, req.flags, req.counter, junk, d, id);
    }
  }

  lemma SubscribeSubs(m: Table, c: ClientIx, k: Id, flags: Flags, counter: Word, junk: seq<byte>, d: ClientIx, id: Id)
    ensures var n := TSubscribe(m, c, k, flags, junk);
            var asked := c == d && k == id && GrantedNow(m, Want(id, flags, counter));
      Subscribes(n, d, id) <==> id in n && (Subscribes(m, d, id) || asked)
  {
  }

  // Over one step, a client keeps what it holds as long as the event is there
  // and it does not give it up, and gains what it asks for and is granted.
  lemma StepSubs(m: Table, sender: Option<ClientIx>, x: Input, counter: Word, junk: seq<byte>, d: ClientIx, id: Id)
    requires Stays(sender, x, d)
    ensures var n := TStep(m, sender, x, counter, junk);
            var w := Asks(sender, x, d);
      && (Subscribes(n, d, id)
          <==> id in n && !Drops(sender, x, d, id)
               && (Subscribes(m, d, id) || (w.Some? && w.value.id == id && GrantedNow(m, w.value))))
  {
    hide Overwrite, DefinedSize, TRequest, Rejects, GrantedNow;
    if (x.Packet? || x.Datagram?) && sender.Some? {
      RequestSubs(m, sender.value, x.req, counter, junk, d, id);
    }
  }

  // ------------------------------------------------------------- whole runs

  predicate StaysAll(s: State, xs: seq<Input>, d: ClientIx)
    requires Shape(s)
  {
    xs == [] ||
    var t := Run(s, xs[..|xs| - 1]);
    StaysAll(s, xs[..|xs| - 1], d) && Stays(Sender(t, xs[|xs| - 1]), xs[|xs| - 1], d)
  }

  // Everything that a client asks for in a run, in order.
  function AsksAll(s: State, xs: seq<Input>, d: ClientIx): seq<Want>
    requires Shape(s)
  {
    if xs == [] then []
    else
      var w := Asks(Sender(Run(s, xs[..|xs| - 1]), xs[|xs| - 1]), xs[|xs| - 1], d);
      AsksAll(s, xs[..|xs| - 1], d) + if w.Some? then [w.value] else []
  }

  // Step k asks for the event and is granted it by the table of that moment.
  predicate GrantedAt(s: State, xs: seq<Input>, d: ClientIx, id: Id, k: nat)
    requires Shape(s) && k < |xs|
  {
    var t := Run(s, xs[..k]);
    var w := Asks(Sender(t, xs[k]), xs[k], d);
    w.Some? && w.value.id == id && GrantedNow(Abs(t), w.value)
  }

  // After step k the event is there, and the client has not given it up in it.
  predicate KeptAt(s: State, xs: seq<Input>, d: ClientIx, id: Id, k: nat)
    requires Shape(s) && k < |xs|
  {
    id in Abs(Run(s, xs[..k + 1])) && !Drops(Sender(Run(s, xs[..k]), xs[k]), xs[k], d, id)
  }

  predicate KeptSince(s: State, xs: seq<Input>, d: ClientIx, id: Id, k: nat)
    requires Shape(s) && k <= |xs|
  {
    forall j | k <= j < |xs| :: KeptAt(s, xs, d, id, j)
  }

  ghost predicate HeldBecause(s: State, xs: seq<Input>, d: ClientIx, id: Id)
    requires Shape(s)
  {
    || (Subscribes(Abs(s), d, id) && KeptSince(s, xs, d, id, 0))
    || exists k :: 0 <= k < |xs| && GrantedAt(s, xs, d, id, k) && KeptSince(s, xs, d, id, k)
  }

  lemma HeldStep(s: State, xs: seq<Input>, d: ClientIx, id: Id)
    requires Shape(s) && xs != []
    ensures var n := |xs| - 1;
      HeldBecause(s, xs, d, id)
      <==> KeptAt(s, xs, d, id, n) && (HeldBecause(s, xs[..n], d, id) || GrantedAt(s, xs, d, id, n))
  {
    hide Abs, Run, Subscribes, Sender, GrantedNow, Asks, Shape, Drops;
    var n := |xs| - 1;
    var front := xs[..n];
    forall j | 0 <= j <= n ensures front[..j] == xs[..j] {
    }
    assert forall k | 0 <= k < n :: front[k] == xs[k];
    forall k | 0 <= k < n
      ensures GrantedAt(s, front, d, id, k) <==> GrantedAt(s, xs, d, id, k)
      ensures KeptAt(s, front, d, id, k) <==> KeptAt(s, xs, d, id, k)
    {
    }
    HeldFromParts(s, xs, d, id);
  }

  lemma HeldFromParts(s: State, xs: seq<Input>, d: ClientIx, id: Id)
    requires Shape(s) && xs != []
    requires var n := |xs| - 1;
      && (forall k | 0 <= k < n :: GrantedAt(s, xs[..n], d, id, k) <==> GrantedAt(s, xs, d, id, k))
      && (forall k | 0 <= k < n :: KeptAt(s, xs[..n], d, id, k) <==> KeptAt(s, xs, d, id, k))
    ensures var n := |xs| - 1;
      HeldBecause(s, xs, d, id)
      <==> KeptAt(s, xs, d, id, n) && (HeldBecause(s, xs[..n], d, id) || GrantedAt(s, xs, d, id, n))
  {
    hide Abs, Run, Subscribes, Shape, GrantedAt, KeptAt;
    var n := |xs| - 1;
    var front := xs[..n];
    forall k | 0 <= k <= n
      ensures KeptSince(s, xs, d, id, k) <==> KeptSince(s, front, d, id, k) && KeptAt(s, xs, d, id, n)
    {
    }
    hide KeptSince;
    if HeldBecause(s, front, d, id) && KeptAt(s, xs, d, id, n) {
      if !(Subscribes(Abs(s), d, id) && KeptSince(s, front, d, id, 0)) {
        var k :| 0 <= k < n && GrantedAt(s, front, d, id, k) && KeptSince(s, front, d, id, k);
        assert GrantedAt(s, xs, d, id, k) && KeptSince(s, xs, d, id, k);
      }
    }
    if GrantedAt(s, xs, d, id, n) && KeptAt(s, xs, d, id, n) {
      NothingSince(s, front, d, id);
      assert KeptSince(s, xs, d, id, n);
    }
    if HeldBecause(s, xs, d, id) {
      if Subscribes(Abs(s), d, id) && KeptSince(s, xs, d, id, 0) {
        assert KeptSince(s, front, d, id, 0);
      } else {
        var k :| 0 <= k < |xs| && GrantedAt(s, xs, d, id, k) && KeptSince(s, xs, d, id, k);
        assert KeptSince(s, front, d, id, k) && (k < n ==> GrantedAt(s, front, d, id, k));
      }
    }
  }

  lemma NothingSince(s: State, xs: seq<Input>, d: ClientIx, id: Id)
    requires Shape(s)
    ensures KeptSince(s, xs, d, id, |xs|)
  {
  }

  // Over any run in which a client stays, it is subscribed to an event at the
  // end exactly when it held it at the start or asked for it at some step and
  // was granted it then, and ever since the event has been there and the
  // client has not given it up.
  lemma {:induction false} SubscribedIffGranted(s: State, xs: seq<Input>, d: ClientIx, id: Id)
    requires Inv(s) && LegalRun(s, xs) && StaysAll(s, xs, d)
    ensures Subscribes(Abs(Run(s, xs)), d, id) <==> HeldBecause(s, xs, d, id)
  {
    hide EventsOk, OnlyLive, Counted, UniqueChannels, UniqueAddrs, SocketsOk;
    hide Abs, Step, TStep, Junk, Sender, Asks, Stays, GrantedNow, Subscribes, Drops;
    if xs == [] {
      assert xs[..0] == [];
      hide Shape;
    } else {
      var front, x := xs[..|xs| - 1], xs[|xs| - 1];
      var t := Run(s, front);
      SubscribedIffGranted(s, front, d, id);
      RunKeepsInv(s, front);
      StepRefines(t, x);
      StepSubs(Abs(t), Sender(t, x), x, t.counter, Junk(t), d, id);
      HeldStep(s, xs, d, id);
      assert xs[..|xs|] == xs;
      hide HeldBecause, KeptSince;
      SubscribesHas(Abs(Run(s, xs)), d, id);
    }
  }

  lemma SubscribesHas(m: Table, d: ClientIx, id: Id)
    ensures Subscribes(m, d, id) ==> id in m
  {
  }

  // A client that went away and came back, among the steps of all others: it
  // holds exactly what it has asked for again, was granted by the table of
  // that moment, and has neither been undefined nor given up since.
  lemma ReturnsAmongOthers(s: State, c: ClientIx, fd: nat, addr: Addr, xs: seq<Input>, id: Id)
    requires Inv(s) && Live(s, c)
    requires var (u, d) := Returned(s, c, fd, addr); LegalRun(u, xs) && StaysAll(u, xs, d)
    ensures var (u, d) := Returned(s, c, fd, addr);
      && Inv(Run(u, xs))
      && (Subscribes(Abs(Run(u, xs)), d, id)
          <==> exists k :: 0 <= k < |xs| && GrantedAt(u, xs, d, id, k) && KeptSince(u, xs, d, id, k))
  {
    hide EventsOk, OnlyLive, Counted, UniqueChannels, UniqueAddrs, SocketsOk;
    hide Abs, Run, LegalRun, StaysAll, GrantedAt, KeptSince, CloseClient;
    CloseKeepsInv(s, c);
    var v := CloseClient(s, c);
    var (u, d) := Returned(s, c, fd, addr);
    AcceptKeepsInv(v, fd, addr);
    SameEventsSameTable(v, u);
    NewcomerHoldsNothing(v, d);
    RunKeepsInv(u, xs);
    SubscribedIffGranted(u, xs, d, id);
  }

  // What was granted had been asked for.
  lemma {:induction false} GrantedWasAsked(s: State, xs: seq<Input>, d: ClientIx, id: Id, k: nat)
    requires Shape(s) && k < |xs| && GrantedAt(s, xs, d, id, k)
    ensures exists i :: 0 <= i < |AsksAll(s, xs, d)| && AsksAll(s, xs, d)[i].id == id
  {
    hide Abs, Run, Sender, GrantedNow, Shape, Asks;
    var n := |xs| - 1;
    var front := xs[..n];
    if k == n {
      var all := AsksAll(s, xs, d);
      assert all[|all| - 1].id == id;
    } else {
      assert front[..k] == xs[..k] && front[k] == xs[k];
      GrantedWasAsked(s, front, d, id, k);
      var i :| 0 <= i < |AsksAll(s, front, d)| && AsksAll(s, front, d)[i].id == id;
      assert AsksAll(s, xs, d)[i].id == id;
    }
  }
}
