// The server's count of its clients, which is only ever raised: what it is
// after a run, and when the client list agrees with it.
module BrokerClientCount {
  import opened Bytes
  import opened Headers
  import opened SyncClock
  import opened ListPaging
  import opened Broker
  import opened BrokerInvariant
  import opened BrokerRuns
  import opened BrokerCounting

  const WRAP32: nat := 0x1_0000_0000

  function LiveClients(s: State): set<nat>
    requires Shape(s)
  {
    set c: nat | c < CLIENTS && Live(s, c)
  }

  // Whether an input closes a client: a disconnection, or an introduction
  // that is rejected, also in a datagram that reaches a client.
  predicate Closes(s: State, x: Input)
    requires Shape(s)
  {
    match x
    case Gone(_) => true
    case Packet(_, req, _) => Rejects(req)
    case Datagram(_, req, _) => Rejects(req) && Sender(s, x).Some?
    case _ => false
  }

  function Closures(s: State, xs: seq<Input>): nat
    requires Shape(s)
  {
    if xs == [] then 0
    else Closures(s, xs[..|xs| - 1]) + if Closes(Run(s, xs[..|xs| - 1]), xs[|xs| - 1]) then 1 else 0
  }

  // ------------------------------------------------------------- one request

  lemma CloseKeepsCount(s: State, c: ClientIx)
    requires Shape(s)
    ensures CloseClient(s, c).clientCount == s.clientCount
  {
    CountKept(s, c, EVENTS);
    hide RemoveFromEvents;
  }

  lemma GreetKeepsCount(s: State, c: ClientIx, id: Id, major: U32, minor: U32)
    requires Shape(s)
    ensures Greeted(s, c, id, major, minor).s.clientCount == s.clientCount
  {
    CloseKeepsCount(s, c);
    hide CloseClient, Emit;
  }

  lemma WritesKeepCount(s: State, c: ClientIx, id: Id, flags: Flags, data: seq<byte>, size: nat, now: Time)
    requires Shape(s) && |data| <= DATA_SIZE && size <= DATA_SIZE
    ensures Written(s, c, id, flags, data, now).s.clientCount == s.clientCount
    ensures ServerSize(flags, size) <= |data| ==>
              WrittenByServer(s, id, flags, data, size, now).s.clientCount == s.clientCount
  {
    hide SendEvent, Stored;
  }

  lemma RequestKeepsCount(s: State, c: ClientIx, req: Request, now: Time)
    requires Shape(s) && Bounded(req)
    ensures Processed(s, c, req, now).s.clientCount == s.clientCount
  {
    hide SendEvent, Emit, Greeted, Written, EmitAll;
    match req
    case Write(id, flags, data) => WritesKeepCount(s, c, id, flags, data, 0, now);
    case Hello(id, major, minor) => GreetKeepsCount(s, c, id, major, minor);
    case _ =>
  }

  lemma LiveLess(s: State, t: State, c: ClientIx, gone: bool)
    requires Shape(s) && Shape(t) && Live(s, c)
    requires forall d: ClientIx :: Live(t, d) <==> Live(s, d) && !(gone && d == c)
    ensures |LiveClients(t)| == |LiveClients(s)| - if gone then 1 else 0
  {
    hide Live, Shape;
    assert LiveClients(t) == LiveClients(s) - if gone then {c} else {};
    assert c in LiveClients(s);
  }

  lemma LiveMore(s: State, t: State, c: ClientIx)
    requires Shape(s) && Shape(t)
    requires forall d: ClientIx :: Live(t, d) <==> Live(s, d) || d == c
    ensures |LiveClients(t)| == |LiveClients(s)| + if Live(s, c) then 0 else 1
  {
    hide Live, Shape;
    assert LiveClients(t) == LiveClients(s) + {c};
    if Live(s, c) {
      assert c in LiveClients(s);
      assert LiveClients(t) == LiveClients(s);
    } else {
      assert c !in LiveClients(s);
    }
  }

  lemma RequestCloses(s: State, c: ClientIx, req: Request, now: Time)
    requires Inv(s) && Live(s, c) && Bounded(req) && NamesOk(req)
    ensures var t := Processed(s, c, req, now).s;
      && t.clientCount == s.clientCount
      && |LiveClients(t)| == |LiveClients(s)| - if Rejects(req) then 1 else 0
  {
    hide EventsOk, OnlyLive, Counted, UniqueChannels, UniqueAddrs, SocketsOk, Processed, Rejects, Drift, Live;
    RequestKeepsCount(s, c, req, now);
    RequestDrift(s, c, req, now);
    var t := Processed(s, c, req, now).s;
    forall d: ClientIx ensures Live(t, d) <==> Live(s, d) && !(Rejects(req) && d == c) {
      assert Drift(t, d) == Drift(t, d);
    }
    LiveLess(s, t, c, Rejects(req));
  }

  // -------------------------------------------------------------- one input

  // A step opens at most one client, and counts it; it closes at most one,
  // and does not.
  ghost predicate Accounted(s: State, t: State, closes: bool)
    requires Shape(s) && Shape(t)
  {
    var arrived := |LiveClients(t)| + (if closes then 1 else 0) - |LiveClients(s)|;
    0 <= arrived <= 1 && t.clientCount == (s.clientCount + arrived) % WRAP32
  }

  lemma SameClientsAccounted(s: State, t: State)
    requires Shape(s) && Shape(t) && t.clientCount == s.clientCount
    requires forall d: ClientIx :: Live(t, d) <==> Live(s, d)
    ensures Accounted(s, t, false)
  {
    hide Live, Shape;
    assert LiveClients(t) == LiveClients(s);
  }

  lemma ConnectionAccounted(s: State, fd: nat, addr: Addr)
    requires Inv(s)
    ensures Accounted(s, Accepted(s, fd, addr).s, false)
  {
    var t := Accepted(s, fd, addr).s;
    var c := FreeClient(s.clients);
    hide EventsOk, OnlyLive, Counted, UniqueChannels, UniqueAddrs, SocketsOk, LiveClients;
    if c < CLIENTS {
      LiveMore(s, t, c);
    }
  }

  lemma DatagramOpens(s: State, addr: Addr, req: Request)
    requires Inv(s)
    ensures Accounted(s, ClientOfDatagram(s, addr, req).0, false)
  {
    hide EventsOk, OnlyLive, Counted, UniqueChannels, UniqueAddrs, SocketsOk, LiveClients;
    var (t, _) := ClientOfDatagram(s, addr, req);
    var c := FindUdpAddr(s.clients, addr);
    if c == CLIENTS && req.Hello? {
      var k := FindUdpId(s.clients, req.id);
      if k < CLIENTS {
        LiveMore(s, t, k);
      } else {
        var free := FreeClient(s.clients);
        if free < CLIENTS {
          LiveMore(s, t, free);
        }
      }
    }
  }

  lemma DatagramAccounted(s: State, addr: Addr, req: Request, now: Time)
    requires Inv(s) && Bounded(req) && NamesOk(req)
    ensures var x: Call := Datagram(addr, req, now);
      Accounted(s, DatagramProcessed(s, addr, req, now).s, Closes(s, x))
  {
    hide EventsOk, OnlyLive, Counted, UniqueChannels, UniqueAddrs, SocketsOk, LiveClients, Processed;
    hide ClientOfDatagram, Rejects;
    DatagramClientKeepsInv(s, addr, req);
    DatagramOpens(s, addr, req);
    var (t, c) := ClientOfDatagram(s, addr, req);
    if c < CLIENTS {
      RequestCloses(t, c, req, now);
    }
  }

  lemma ProgramKeepsCount(s: State, x: Input)
    requires Shape(s) && !x.Packet? && !x.Datagram? && !x.Connection? && !x.Gone?
    ensures Step(s, x).s.clientCount == s.clientCount
  {
    hide SendEvent;
  }

  lemma ProgramAccounted(s: State, x: Input)
    requires Inv(s) && !x.Packet? && !x.Datagram? && !x.Connection? && !x.Gone?
    ensures Accounted(s, Step(s, x).s, false)
  {
    ProgramKeepsCount(s, x);
    hide EventsOk, OnlyLive, Counted, UniqueChannels, UniqueAddrs, SocketsOk, LiveClients, Live, Drift;
    hide WrittenByServer, Defined, Undefined, Hooked, Unhooked, Accounted;
    var t := Step(s, x).s;
    match x {
      case ServerWrite(id, flags, data, size, now) => ServerWriteDrift(s, id, flags, data, size, now);
      case ServerDefine(id, flags, value, size) => DefineDrift(s, id, flags, value, size);
      case ServerUndefine(id) => UndefineDrift(s, id);
      case ServerHook(id, force, callback) => HookDrift(s, id, force, callback);
      case ServerUnhook(id) => HookDrift(s, id, false, 0);
    }
    forall d: ClientIx ensures Live(t, d) <==> Live(s, d) {
      assert Drift(t, d) == Drift(t, d);
    }
    SameClientsAccounted(s, t);
  }

  lemma StepAccounted(s: State, x: Input)
    requires Inv(s) && Legal(s, x)
    ensures Accounted(s, Step(s, x).s, Closes(s, x))
  {
    hide EventsOk, OnlyLive, Counted, UniqueChannels, UniqueAddrs, SocketsOk, LiveClients, Processed, DatagramProcessed;
    hide Accepted, CloseClient, Rejects;
    match x
    case Packet(c, req, now) => RequestCloses(s, c, req, now);
    case Datagram(addr, req, now) => DatagramAccounted(s, addr, req, now);
    case Connection(fd, addr) => ConnectionAccounted(s, fd, addr);
    case Gone(c) =>
      CloseKeepsCount(s, c);
      CloseDrift(s, c);
      LiveLess(s, CloseClient(s, c), c, true);
    case _ => ProgramAccounted(s, x);
  }

  // ------------------------------------------------------------- whole runs

  // After any run, the client count is the number of live clients plus the
  // number of clients that were ever closed, in 32 bits.
  lemma {:induction false} ClientCountOverRuns(s: State, xs: seq<Input>)
    requires Initial(s) && LegalRun(s, xs)
    ensures Run(s, xs).clientCount == (|LiveClients(Run(s, xs))| + Closures(s, xs)) % WRAP32
  {
    hide EventsOk, OnlyLive, Counted, UniqueChannels, UniqueAddrs, SocketsOk, Step, Closes, LiveClients;
    hide Closures, Run, LegalRun;
    InitialInv(s);
    ClosuresUnfold(s, xs);
    if xs == [] {
      NobodyYet(s);
    } else {
      hide Initial;
      var front, x := xs[..|xs| - 1], xs[|xs| - 1];
      var t := Run(s, front);
      ClientCountOverRuns(s, front);
      RunKeepsInv(s, front);
      StepAccounted(t, x);
      hide Inv;
      CarryOn(t.clientCount, |LiveClients(t)| + Closures(s, front),
              |LiveClients(Step(t, x).s)| + (if Closes(t, x) then 1 else 0) - |LiveClients(t)|);
    }
  }

  lemma NobodyYet(s: State)
    requires Initial(s)
    ensures |LiveClients(s)| == 0 && s.clientCount == 0
  {
    assert LiveClients(s) == {};
  }

  lemma ClosuresUnfold(s: State, xs: seq<Input>)
    requires Shape(s)
    ensures xs == [] ==> Run(s, xs) == s && Closures(s, xs) == 0
    ensures xs != [] ==>
      var front, x := xs[..|xs| - 1], xs[|xs| - 1];
      && Run(s, xs) == Step(Run(s, front), x).s
      && (LegalRun(s, xs) <==> LegalRun(s, front) && Legal(Run(s, front), x))
      && Closures(s, xs) == Closures(s, front) + if Closes(Run(s, front), x) then 1 else 0
  {
    hide Step, Closes, Legal, Shape;
  }

  lemma CarryOn(count: nat, sum: nat, arrived: nat)
    requires count == sum % WRAP32
    ensures (count + arrived) % WRAP32 == (sum + arrived) % WRAP32
  {
    var q := sum / WRAP32;
    assert sum + arrived == count + arrived + WRAP32 * q;
  }

  lemma ListedAreLive(t: State)
    requires Shape(t)
    ensures |Used(ClientRecords(t))| == |LiveClients(t)| <= CLIENTS
  {
    hide Used;
    UsedCount(ClientRecords(t));
    assert Somes(ClientRecords(t)) == LiveClients(t);
    SubrangeSize(LiveClients(t), CLIENTS);
  }

  lemma SmallSum(n: nat, k: nat)
    requires n < WRAP32
    ensures (n + k) % WRAP32 == n <==> k % WRAP32 == 0
  {
    var q, r := k / WRAP32, k % WRAP32;
    assert n + k == n + r + WRAP32 * q;
    assert (n + k) % WRAP32 == (n + r) % WRAP32;
  }

  // The count is the number of clients that are listed exactly while nobody,
  // or a multiple of 2^32, was ever closed; and the pages of a list announce
  // their number exactly while the closed clients do not fill another page.
  lemma ClientListExactIff(s: State, xs: seq<Input>, sequence: byte)
    requires Initial(s) && LegalRun(s, xs)
    ensures var t := Run(s, xs);
            var live, closed := |LiveClients(t)|, Closures(s, xs);
            var pages := Response(ClientRecords(t), CLIENTS_PER_PAGE, t.clientCount, sequence);
      && Contents(pages) == Used(ClientRecords(t)) && |Contents(pages)| == live
      && |pages| == live / CLIENTS_PER_PAGE + 1
      && (t.clientCount == live <==> closed % WRAP32 == 0)
      && ((forall k | 0 <= k < |pages| :: pages[k].announced == |pages|)
          <==> (live + closed) % WRAP32 / CLIENTS_PER_PAGE % 256 == live / CLIENTS_PER_PAGE)
  {
    hide Run, LegalRun, Closures, LiveClients, ClientRecords, Used, Contents, Response;
    ClientCountOverRuns(s, xs);
    var t := Run(s, xs);
    ListedAreLive(t);
    ResponseShape(ClientRecords(t), CLIENTS_PER_PAGE, t.clientCount, sequence);
    SmallSum(|LiveClients(t)|, Closures(s, xs));
    var pages := Response(ClientRecords(t), CLIENTS_PER_PAGE, t.clientCount, sequence);
    NextPage(t.clientCount / CLIENTS_PER_PAGE, |LiveClients(t)| / CLIENTS_PER_PAGE);
    assert pages[0].announced == (t.clientCount / CLIENTS_PER_PAGE + 1) % 256;
  }

  lemma NextPage(a: nat, b: nat)
    requires b < 255
    ensures (a + 1) % 256 == b + 1 <==> a % 256 == b
  {
  }
}
