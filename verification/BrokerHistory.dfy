// What the table owes to the history of a run: the last write, and the order
// of writes.
module BrokerHistory {
  import opened Bytes
  import opened Headers
  import opened SyncClock
  import opened Broker
  import opened BrokerInvariant
  import opened BrokerTable
  import opened BrokerRuns

  const WRAP: nat := 0x1_0000_0000_0000_0000

  // ---------------------------------------------------------- the last write

  // A request that puts other bytes, another type or nothing at all in the
  // place of an event that is there: an accepted write, a forced definition,
  // an undefinition.
  predicate RequestDisturbs(m: Table, req: Request, id: Id) {
    || (req.Write? && req.id == id && WriteAccepted(m, id, req.flags))
    || (req.Define? && req.id == id && req.flags.force)
    || (req.Undefine? && req.id == id)
  }

  predicate Disturbs(m: Table, sender: Option<ClientIx>, x: Input, id: Id) {
    match x
    case Packet(_, req, _) => sender.Some? && RequestDisturbs(m, req, id)
    case Datagram(_, req, _) => sender.Some? && RequestDisturbs(m, req, id)
    case ServerWrite(k, _, _, _, _) => k == id
    case ServerDefine(k, flags, _, size) => k == id && flags.force && size <= 511
    case ServerUndefine(k) => k == id
    case _ => false
  }

  lemma RequestLeaves(m: Table, c: ClientIx, req: Request, counter: Word, junk: seq<byte>, id: Id)
    requires id in m && !RequestDisturbs(m, req, id)
    ensures var n := TRequest(m, c, req, counter, junk);
      && id in n && Value(n[id]) == Value(m[id]) && n[id].vartype == m[id].vartype && n[id].stamp == m[id].stamp
  {
    hide Value, Overwrite;
    SameValue();
  }

  lemma SameValue()
    ensures forall a: Entry, b: Entry | a.data == b.data && a.size == b.size :: Value(a) == Value(b)
  {
  }

  lemma StepLeaves(m: Table, sender: Option<ClientIx>, x: Input, counter: Word, junk: seq<byte>, id: Id)
    requires id in m && !Disturbs(m, sender, x, id)
    ensures var n := TStep(m, sender, x, counter, junk);
      && id in n && Value(n[id]) == Value(m[id]) && n[id].vartype == m[id].vartype && n[id].stamp == m[id].stamp
  {
    hide Value, Overwrite, TRequest, RequestDisturbs;
    SameValue();
    if (x.Packet? || x.Datagram?) && sender.Some? {
      RequestLeaves(m, sender.value, x.req, counter, junk, id);
    }
  }

  // No input of the run, where it comes, disturbs the event.
  predicate Quiet(s: State, xs: seq<Input>, id: Id)
    requires Shape(s)
  {
    xs == [] ||
    var t := Run(s, xs[..|xs| - 1]);
    var x := xs[|xs| - 1];
    Quiet(s, xs[..|xs| - 1], id) && !Disturbs(Abs(t), Sender(t, x), x, id)
  }

  lemma {:induction false} QuietKeeps(s: State, xs: seq<Input>, id: Id)
    requires Inv(s) && LegalRun(s, xs) && id in Abs(s) && Quiet(s, xs, id)
    ensures var t := Run(s, xs);
      && Inv(t) && id in Abs(t)
      && Value(Abs(t)[id]) == Value(Abs(s)[id]) && Abs(t)[id].vartype == Abs(s)[id].vartype
      && Abs(t)[id].stamp == Abs(s)[id].stamp
  {
    hide EventsOk, OnlyLive, Counted, UniqueChannels, UniqueAddrs, SocketsOk, Abs, Step, Disturbs, TStep, Junk;
    hide Sender, Value;
    if xs == [] {
    } else {
      var front, x := xs[..|xs| - 1], xs[|xs| - 1];
      var t := Run(s, front);
      QuietKeeps(s, front, id);
      StepRefines(t, x);
      StepLeaves(Abs(t), Sender(t, x), x, t.counter, Junk(t), id);
    }
  }

  // A read returns exactly the bytes of the last accepted write: whatever
  // else happened in between, to this event or to others, and whoever reads.
  lemma ReadReturnsLastWrite(s: State, c: ClientIx, id: Id, flags: Flags, data: seq<byte>, now: Time, w: State,
                             xs: seq<Input>, t: State, d: ClientIx, limit: nat)
    requires Inv(s) && Named(id) && |data| <= DATA_SIZE && WriteAccepted(Abs(s), id, flags)
    requires w == Written(s, c, id, flags, data, now).s
    requires t == Run(w, xs) && LegalRun(w, xs) && Quiet(w, xs, id) && Live(t, d)
    ensures ReadBy(t, d, id).out == [Sent(d, ReadReply(id, flags.vartype, data))]
    ensures ReadByServer(t, id, limit) == Some(data[..if limit > |data| then |data| else limit])
  {
    hide EventsOk, OnlyLive, Counted, UniqueChannels, UniqueAddrs, SocketsOk, Abs, Written, LegalRun, Quiet;
    hide Run, Junk, Value;
    hide TWrite, WriteOutputs, ReadBy, ReadByServer;
    WriteRefines(s, c, id, flags, data, now);
    QuietKeeps(w, xs, id);
    ReadRefines(t, d, id);
    ServerReadRefines(t, id, limit);
  }

  // The same for a write by the server's own program, which brings no type.
  lemma ReadReturnsLastServerWrite(s: State, id: Id, flags: Flags, data: seq<byte>, size: nat, now: Time, w: State,
                                   xs: seq<Input>, t: State, d: ClientIx, limit: nat)
    requires Inv(s) && Named(id) && ServerSize(flags, size) <= |data| && size <= DATA_SIZE
    requires id in Abs(s) || (flags.force && |Abs(s)| < EVENTS)
    requires w == WrittenByServer(s, id, flags, data, size, now).s
    requires t == Run(w, xs) && LegalRun(w, xs) && Quiet(w, xs, id) && Live(t, d)
    ensures var written := data[..ServerSize(flags, size)];
      && ReadBy(t, d, id).out
          == [Sent(d, ReadReply(id, if id in Abs(s) then Abs(s)[id].vartype else VAR_UNDEFINED, written))]
      && ReadByServer(t, id, limit) == Some(written[..if limit > |written| then |written| else limit])
  {
    hide EventsOk, OnlyLive, Counted, UniqueChannels, UniqueAddrs, SocketsOk;
    hide Abs, WrittenByServer, LegalRun, Quiet, Run, Junk, Value, WriteOutputs, ReadBy, ReadByServer, Overwrite;
    ServerWriteRefines(s, id, flags, data, size, now);
    QuietKeeps(w, xs, id);
    ReadRefines(t, d, id);
    ServerReadRefines(t, id, limit);
  }

  lemma ServerReadRefines(s: State, id: Id, limit: nat)
    requires Inv(s) && Named(id)
    ensures ReadByServer(s, id, limit)
         == if id !in Abs(s) then None
            else Some(Value(Abs(s)[id])[..if limit > |Value(Abs(s)[id])| then |Value(Abs(s)[id])| else limit])
  {
    Lookup(s, id);
    if id in Abs(s) {
      var e := s.events[FindEvent(s.events, id)];
      var n := if limit > e.size then e.size else limit;
      assert EventShape(e) && Value(Abs(s)[id]) == e.data[..e.size];
      assert e.data[..e.size][..n] == e.data[..n];
    }
  }

  // A forced definition after the write changes only the length that is read:
  // the written bytes come back exactly when the defined size is their number.
  lemma WrittenBytesAfterForcedDefine(s: State, c: ClientIx, id: Id, flags: Flags, data: seq<byte>, now: Time,
                                      redefined: Flags, size: nat)
    requires Inv(s) && Named(id) && |data| <= DATA_SIZE && redefined.force
    requires WriteAccepted(Abs(s), id, flags)
    ensures var t := Defined(Written(s, c, id, flags, data, now).s, id, redefined, None, size).s;
      id in Abs(t) && (Value(Abs(t)[id]) == data <==> DefinedSize(redefined, size) == |data|)
  {
    hide EventsOk, OnlyLive, Counted, UniqueChannels, UniqueAddrs, SocketsOk, Abs, Written, Defined, Junk;
    hide WriteOutputs, Ensured;
    WriteRefines(s, c, id, flags, data, now);
    var w := Written(s, c, id, flags, data, now).s;
    DefineRefines(w, id, redefined, None, size);
    BuffersSized(w);
    BuffersSized(Defined(w, id, redefined, None, size).s);
    EnsuredPresent(Abs(w), id, true, VAR_UNDEFINED, Junk(w));
    var n := Abs(w)[id];
    assert n.data[..|data|] == data;
  }

  lemma EnsuredPresent(m: Table, id: Id, force: bool, vartype: VarType, junk: seq<byte>)
    requires id in m
    ensures Ensured(m, id, force, vartype, junk) == Some(m)
  {
  }

  // --------------------------------------------------------- order of writes

  // How many client writes a run has accepted.
  function Writes(s: State, xs: seq<Input>): nat
    requires Shape(s)
  {
    if xs == [] then 0
    else
      var t := Run(s, xs[..|xs| - 1]);
      var x := xs[|xs| - 1];
      Writes(s, xs[..|xs| - 1]) + if Stamps(Abs(t), Sender(t, x), x) then 1 else 0
  }

  // The number, counting from 0, of the last accepted client write to an
  // event since it came into being; None without one.
  function LastWrite(s: State, xs: seq<Input>, id: Id): Option<nat>
    requires Shape(s)
  {
    if xs == [] then None
    else
      var front := xs[..|xs| - 1];
      var t := Run(s, front);
      var x := xs[|xs| - 1];
      if Stamps(Abs(t), Sender(t, x), x) && x.req.id == id then Some(Writes(s, front))
      else if id in Abs(t) && id in Abs(Run(s, xs)) then LastWrite(s, front, id)
      else None
  }

  // A step stamps the event of an accepted client write with the counter, and
  // no other.
  lemma RequestStamp(m: Table, c: ClientIx, req: Request, counter: Word, junk: seq<byte>, id: Id)
    ensures var n := TRequest(m, c, req, counter, junk);
            var stamped := req.Write? && req.id == id && WriteAccepted(m, id, req.flags);
      && (stamped ==> id in n && n[id].stamp == counter)
      && (!stamped && id in n ==> n[id].stamp == if id in m then m[id].stamp else 0)
  {
    hide Overwrite, DefinedSize;
  }

  lemma StepStamp(m: Table, sender: Option<ClientIx>, x: Input, counter: Word, junk: seq<byte>, id: Id)
    ensures var n := TStep(m, sender, x, counter, junk);
            var stamped := Stamps(m, sender, x) && x.req.id == id;
      && (stamped ==> id in n && n[id].stamp == counter)
      && (!stamped && id in n ==> n[id].stamp == if id in m then m[id].stamp else 0)
  {
    hide Overwrite, DefinedSize, TRequest, WriteAccepted;
    if (x.Packet? || x.Datagram?) && sender.Some? {
      RequestStamp(m, sender.value, x.req, counter, junk, id);
    }
  }

  // The counter counts the accepted client writes, and an event's stamp is
  // the number of the last one to it, as long as they fit 64 bits.
  lemma {:induction false} StampIsLastWrite(s: State, xs: seq<Input>, id: Id)
    requires Initial(s) && LegalRun(s, xs) && Writes(s, xs) < WRAP
    ensures var t := Run(s, xs);
      && Inv(t) && t.counter == Writes(s, xs)
      && (id in Abs(t) ==> Abs(t)[id].stamp == if LastWrite(s, xs, id).Some? then LastWrite(s, xs, id).value else 0)
  {
    hide Inv, Step, TStep, Junk, Sender, Stamps, Initial, Run, Writes, LastWrite, LegalRun, Abs;
    InitialInv(s);
    RunUnfolds(s, xs, id);
    if xs == [] {
      InitialEmpty(s);
    } else {
      var front, x := xs[..|xs| - 1], xs[|xs| - 1];
      var t := Run(s, front);
      StampIsLastWrite(s, front, id);
      StepRefines(t, x);
      StepStamp(Abs(t), Sender(t, x), x, t.counter, Junk(t), id);
    }
  }

  lemma RunUnfolds(s: State, xs: seq<Input>, id: Id)
    requires Shape(s)
    ensures xs == [] ==> Run(s, xs) == s && Writes(s, xs) == 0 && LastWrite(s, xs, id) == None
    ensures xs != [] ==>
      var front, x := xs[..|xs| - 1], xs[|xs| - 1];
      var t, u := Run(s, front), Run(s, xs);
      var stamps := Stamps(Abs(t), Sender(t, x), x);
      && u == Step(t, x).s
      && (LegalRun(s, xs) <==> LegalRun(s, front) && Legal(t, x))
      && Writes(s, xs) == Writes(s, front) + (if stamps then 1 else 0)
      && LastWrite(s, xs, id) == (if stamps && x.req.id == id then Some(Writes(s, front))
                                  else if id in Abs(t) && id in Abs(u) then LastWrite(s, front, id) else None)
  {
    hide Step, Abs, Sender, Legal, Shape;
  }

  lemma InitialEmpty(s: State)
    requires Initial(s)
    ensures Abs(s) == map[] && s.counter == 0
  {
  }

  // Distinct events last written by clients have distinct stamps, all below
  // the counter.
  lemma {:induction false} LastWritesDistinct(s: State, xs: seq<Input>, id: Id, other: Id)
    requires Shape(s)
    ensures LastWrite(s, xs, id).Some? ==> LastWrite(s, xs, id).value < Writes(s, xs)
    ensures id != other && LastWrite(s, xs, id).Some? && LastWrite(s, xs, other).Some?
        ==> LastWrite(s, xs, id).value != LastWrite(s, xs, other).value
  {
    hide Abs, Run, Sender, Stamps;
    if xs == [] {
    } else {
      LastWritesDistinct(s, xs[..|xs| - 1], id, other);
      LastWritesDistinct(s, xs[..|xs| - 1], other, id);
    }
  }

  // ------------------------------------------------------ resent after a gap

  // Some client write to the event is accepted in the run.
  predicate LaterWrite(s: State, xs: seq<Input>, id: Id)
    requires Shape(s)
  {
    xs != [] &&
    var t := Run(s, xs[..|xs| - 1]);
    var x := xs[|xs| - 1];
    LaterWrite(s, xs[..|xs| - 1], id) || (Stamps(Abs(t), Sender(t, x), x) && x.req.id == id)
  }

  // The event is there all along.
  predicate Persists(s: State, xs: seq<Input>, id: Id)
    requires Shape(s)
  {
    id in Abs(Run(s, xs)) && (xs != [] ==> Persists(s, xs[..|xs| - 1], id))
  }

  lemma {:induction false} StampSince(s: State, xs: seq<Input>, id: Id)
    requires Inv(s) && LegalRun(s, xs) && Persists(s, xs, id)
    requires id in Abs(s) && Abs(s)[id].stamp < s.counter && s.counter + Writes(s, xs) < WRAP
    ensures var t := Run(s, xs);
      && Inv(t) && id in Abs(t) && t.counter == s.counter + Writes(s, xs)
      && (LaterWrite(s, xs, id) ==> s.counter <= Abs(t)[id].stamp < t.counter)
      && (!LaterWrite(s, xs, id) ==> Abs(t)[id].stamp == Abs(s)[id].stamp)
  {
    hide EventsOk, OnlyLive, Counted, UniqueChannels, UniqueAddrs, SocketsOk;
    hide Step, TStep, Junk, Sender, Stamps, Run, Writes, LastWrite, LegalRun, Abs;
    RunUnfolds(s, xs, id);
    if xs == [] {
    } else {
      var front, x := xs[..|xs| - 1], xs[|xs| - 1];
      var t := Run(s, front);
      StampSince(s, front, id);
      StepRefines(t, x);
      StepStamp(Abs(t), Sender(t, x), x, t.counter, Junk(t), id);
    }
  }

  // A subscriber that presents the stamp of a write to an event is sent the
  // event again exactly when a later client write to it has been accepted.
  lemma ResentIffWrittenSince(s: State, c: ClientIx, id: Id, flags: Flags, data: seq<byte>, now: Time, w: State,
                              xs: seq<Input>, t: State, d: ClientIx, wanted: Flags)
    requires Inv(s) && Named(id) && |data| <= DATA_SIZE && WriteAccepted(Abs(s), id, flags)
    requires w == Written(s, c, id, flags, data, now).s
    requires t == Run(w, xs) && LegalRun(w, xs) && Persists(w, xs, id) && s.counter + 1 + Writes(w, xs) < WRAP
    requires Live(t, d) && id in Abs(t) && Compatible(Abs(t)[id].vartype, wanted.vartype)
    ensures id in Abs(w) && Abs(w)[id].stamp == s.counter
    ensures Subscribed(t, d, id, wanted, s.counter).out
         == if LaterWrite(w, xs, id) then [Sent(d, Resend(id, Value(Abs(t)[id])))] else []
  {
    hide EventsOk, OnlyLive, Counted, UniqueChannels, UniqueAddrs, SocketsOk, Abs, Written, LegalRun, Run, Junk;
    hide Value, Writes;
    hide WriteOutputs, Subscribed, Persists, LaterWrite, Compatible;
    WriteRefines(s, c, id, flags, data, now);
    StampSince(w, xs, id);
    ResendAt(t, d, id, wanted, s.counter);
  }

  // Whether an existing event is sent again to a subscriber.
  lemma ResendAt(t: State, d: ClientIx, id: Id, wanted: Flags, presented: Word)
    requires Inv(t) && Live(t, d) && Named(id) && id in Abs(t) && Compatible(Abs(t)[id].vartype, wanted.vartype)
    ensures Subscribed(t, d, id, wanted, presented).out
         == if presented < Abs(t)[id].stamp then [Sent(d, Resend(id, Value(Abs(t)[id])))] else []
  {
    hide EventsOk, OnlyLive, Counted, UniqueChannels, UniqueAddrs, SocketsOk, Abs, Junk, Value, Subscribed;
    SubscribeRefines(t, d, id, wanted, presented);
    LiveGets(t, d);
    hide Emit;
    SubscribedEntry(Abs(t), d, id, wanted, Junk(t));
  }

  lemma SubscribedEntry(m: Table, d: ClientIx, id: Id, wanted: Flags, junk: seq<byte>)
    requires id in m && Compatible(m[id].vartype, wanted.vartype)
    ensures var n := TSubscribe(m, d, id, wanted, junk);
      id in n && n[id].stamp == m[id].stamp && Value(n[id]) == Value(m[id]) && d in n[id].subs
          && n[id].vartype == m[id].vartype
  {
  }

  // A newcomer, who presents 0, is sent the present value exactly when a client
  // has written the event, and its last write to it is not the very first one
  // that the server accepted: that one carries stamp 0, like an event that no
  // client has written.
  lemma NewcomerIsSentIff(s: State, xs: seq<Input>, d: ClientIx, id: Id, wanted: Flags)
    requires Initial(s) && LegalRun(s, xs) && Writes(s, xs) < WRAP && Named(id)
    requires var t := Run(s, xs); Live(t, d) && id in Abs(t) && Compatible(Abs(t)[id].vartype, wanted.vartype)
    ensures var t := Run(s, xs);
      Subscribed(t, d, id, wanted, 0).out
      == if LastWrite(s, xs, id).Some? && LastWrite(s, xs, id).value > 0
         then [Sent(d, Resend(id, Value(Abs(t)[id])))] else []
  {
    hide Inv, Abs, LegalRun, Run, Value, Writes, Subscribed, LastWrite;
    StampIsLastWrite(s, xs, id);
    ResendAt(Run(s, xs), d, id, wanted, 0);
  }

  // --------------------------------------------------------- who has written

  // The writer of an event in one step, if there is one: a client, or the
  // server's own program.
  function WriterIn(m: Table, sender: Option<ClientIx>, x: Input, id: Id): Option<Option<ClientIx>> {
    if Stamps(m, sender, x) && x.req.id == id then Some(sender)
    else if x.ServerWrite? && x.id == id && (id in m || (x.flags.force && |m| < EVENTS)) then Some(None)
    else None
  }

  // All writers of an event since it came into being, in order.
  function Writers(s: State, xs: seq<Input>, id: Id): seq<Option<ClientIx>>
    requires Shape(s)
  {
    if xs == [] then []
    else
      var front, x := xs[..|xs| - 1], xs[|xs| - 1];
      var t := Run(s, front);
      if id !in Abs(Run(s, xs)) then []
      else
        var w := WriterIn(Abs(t), Sender(t, x), x, id);
        (if id in Abs(t) then Writers(s, front, id) else []) + if w.Some? then [w.value] else []
  }

  function LastWriter(ws: seq<Option<ClientIx>>): Option<ClientIx> {
    if ws == [] then None else ws[|ws| - 1]
  }

  // How many of the writes came from clients, and how often the writer
  // changed.
  function FromClients(ws: seq<Option<ClientIx>>): nat {
    if ws == [] then 0 else FromClients(ws[..|ws| - 1]) + if ws[|ws| - 1].Some? then 1 else 0
  }

  function Changes(ws: seq<Option<ClientIx>>): nat {
    if ws == [] then 0
    else Changes(ws[..|ws| - 1]) + if ws[|ws| - 1] != LastWriter(ws[..|ws| - 1]) then 1 else 0
  }

  // The counters of an event are those of its writers, in 32 bits.
  predicate Tells(n: Entry, ws: seq<Option<ClientIx>>) {
    && n.producer == LastWriter(ws)
    && n.count == FromClients(ws) % 0x1_0000_0000
    && n.writers == Changes(ws) % 0x1_0000_0000
  }

  lemma RequestWriter(m: Table, c: ClientIx, req: Request, counter: Word, junk: seq<byte>, id: Id)
    ensures var n := TRequest(m, c, req, counter, junk);
            var p := if id in m then m[id] else NewEntry(VAR_UNDEFINED, junk);
            var wrote := req.Write? && req.id == id && WriteAccepted(m, id, req.flags);
      id in n ==>
        var q := if wrote then By(p, Some(c)).(count := (p.count + 1) % 0x1_0000_0000) else p;
        n[id].producer == q.producer && n[id].count == q.count && n[id].writers == q.writers
  {
    if req.Write? {
      WriteWriter(m, c, req.id, req.flags, req.data, counter, junk, id);
      hide TWrite, By, WriteAccepted;
    } else {
      OthersWriteNothing(m, c, req, counter, junk, id);
      hide TRequest;
    }
  }

  lemma OthersWriteNothing(m: Table, c: ClientIx, req: Request, counter: Word, junk: seq<byte>, id: Id)
    requires !req.Write?
    ensures var n := TRequest(m, c, req, counter, junk);
            var p := if id in m then m[id] else NewEntry(VAR_UNDEFINED, junk);
      id in n ==> n[id].producer == p.producer && n[id].count == p.count && n[id].writers == p.writers
  {
    hide Overwrite, DefinedSize, TSubscribe, TDefine;
    match req
    case Subscribe(k, flags, _) => SubscribeWritesNothing(m, c, k, flags, junk, id);
    case Define(k, flags, size) => DefineWritesNothing(m, k, flags, size, junk, id);
    case _ =>
  }

  lemma SubscribeWritesNothing(m: Table, c: ClientIx, k: Id, flags: Flags, junk: seq<byte>, id: Id)
    ensures var n := TSubscribe(m, c, k, flags, junk);
            var p := if id in m then m[id] else NewEntry(VAR_UNDEFINED, junk);
      id in n ==> n[id].producer == p.producer && n[id].count == p.count && n[id].writers == p.writers
  {
  }

  lemma DefineWritesNothing(m: Table, k: Id, flags: Flags, size: nat, junk: seq<byte>, id: Id)
    ensures var n := TDefine(m, k, flags, None, size, junk);
            var p := if id in m then m[id] else NewEntry(VAR_UNDEFINED, junk);
      id in n ==> n[id].producer == p.producer && n[id].count == p.count && n[id].writers == p.writers
  {
    hide Overwrite, DefinedSize;
  }

  lemma WriteWriter(m: Table, c: ClientIx, k: Id, flags: Flags, data: seq<byte>, counter: Word, junk: seq<byte>, id: Id)
    ensures var n := TWrite(m, c, k, flags, data, counter, junk);
            var p := if id in m then m[id] else NewEntry(VAR_UNDEFINED, junk);
            var wrote := k == id && WriteAccepted(m, id, flags);
      id in n ==>
        var q := if wrote then By(p, Some(c)).(count := (p.count + 1) % 0x1_0000_0000) else p;
        n[id].producer == q.producer && n[id].count == q.count && n[id].writers == q.writers
  {
    hide Overwrite;
  }

  lemma StepWriter(m: Table, sender: Option<ClientIx>, x: Input, counter: Word, junk: seq<byte>, id: Id)
    ensures var n := TStep(m, sender, x, counter, junk);
            var p := if id in m then m[id] else NewEntry(VAR_UNDEFINED, junk);
            var w := WriterIn(m, sender, x, id);
      id in n ==>
        var q := if w.None? then p
                 else By(p, w.value).(count := if w.value.Some? then (p.count + 1) % 0x1_0000_0000 else p.count);
        n[id].producer == q.producer && n[id].count == q.count && n[id].writers == q.writers
  {
    hide Overwrite, DefinedSize, TRequest, WriteAccepted;
    if (x.Packet? || x.Datagram?) && sender.Some? {
      RequestWriter(m, sender.value, x.req, counter, junk, id);
    }
  }

  lemma WritersSnoc(ws: seq<Option<ClientIx>>, w: Option<ClientIx>)
    ensures LastWriter(ws + [w]) == w
    ensures FromClients(ws + [w]) == FromClients(ws) + if w.Some? then 1 else 0
    ensures Changes(ws + [w]) == Changes(ws) + if w != LastWriter(ws) then 1 else 0
  {
    assert (ws + [w])[..|ws|] == ws;
  }

  lemma NextMod(a: nat)
    ensures (a % 0x1_0000_0000 + 1) % 0x1_0000_0000 == (a + 1) % 0x1_0000_0000
  {
  }

  lemma WrittenTells(p: Entry, w: Option<Option<ClientIx>>, n: Entry, ws: seq<Option<ClientIx>>)
    requires Tells(p, ws)
    requires w.None? ==> n.producer == p.producer && n.count == p.count && n.writers == p.writers
    requires w.Some? ==>
      var q := By(p, w.value).(count := if w.value.Some? then (p.count + 1) % 0x1_0000_0000 else p.count);
      n.producer == q.producer && n.count == q.count && n.writers == q.writers
    ensures Tells(n, ws + if w.Some? then [w.value] else [])
  {
    if w.Some? {
      WritersSnoc(ws, w.value);
      NextMod(FromClients(ws));
      NextMod(Changes(ws));
    } else {
      assert ws + [] == ws;
    }
  }

  // Over every run: the last writer of an event, how often clients have
  // written it and how often its writer changed, since it came into being.
  lemma {:induction false} WritersAreCounted(s: State, xs: seq<Input>, id: Id)
    requires Initial(s) && LegalRun(s, xs)
    ensures var t := Run(s, xs);
      id in Abs(t) ==> Tells(Abs(t)[id], Writers(s, xs, id))
  {
    hide Inv, Step, TStep, Junk, Sender, WriterIn, Initial, Run, LegalRun, Abs, Tells;
    InitialInv(s);
    RunUnfolds(s, xs, id);
    if xs == [] {
      InitialEmpty(s);
    } else {
      var front, x := xs[..|xs| - 1], xs[|xs| - 1];
      var t := Run(s, front);
      RunKeepsInv(s, front);
      WritersAreCounted(s, front, id);
      StepRefines(t, x);
      StepWriter(Abs(t), Sender(t, x), x, t.counter, Junk(t), id);
      if id in Abs(Run(s, xs)) {
        var w := WriterIn(Abs(t), Sender(t, x), x, id);
        if id in Abs(t) {
          WrittenTells(Abs(t)[id], w, Abs(Run(s, xs))[id], Writers(s, front, id));
        } else {
          NothingWritten(Junk(t));
          WrittenTells(NewEntry(VAR_UNDEFINED, Junk(t)), w, Abs(Run(s, xs))[id], []);
        }
      }
    }
  }

  lemma NothingWritten(junk: seq<byte>)
    ensures Tells(NewEntry(VAR_UNDEFINED, junk), [])
  {
  }
}
