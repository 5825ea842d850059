// From what becomes readable to the runs of the broker: each read, datagram
// or connection is a piece of a run.
module BrokerReads {
  import opened Bytes
  import opened Framing
  import opened Headers
  import opened SyncClock
  import opened Broker
  import opened BrokerInvariant
  import opened BrokerRuns
  import opened BrokerCounting
  import opened BrokerLiveness

  // What a socket has for the handler: bytes, nothing now, or the end.
  datatype Incoming = Bytes(chunk: seq<byte>) | TryAgain | Broken

  // What the server's loop is woken for, and the calls of its own program.
  datatype Ready =
    | Readable(c: ClientIx, incoming: Incoming, behind: nat -> Tail, now: nat -> Time)
    | DatagramReady(addr: Addr, buffer: seq<byte>, size: nat, at: Time)
    | Connecting(fd: nat, from: Addr)
    | Program(call: Input)

  // The tables, and the residue in each client slot's buffer.
  datatype World = World(s: State, residues: seq<seq<byte>>)

  predicate WorldShape(w: World) {
    Shape(w.s) && |w.residues| == CLIENTS
  }

  // ------------------------------------------------------- the requests read

  // The requests in the packets of one read.
  function Arrivals(packets: seq<seq<byte>>, behind: nat -> Tail, now: nat -> Time): (r: seq<Arrival>)
    requires forall i | 0 <= i < |packets| :: |packets[i]| >= HEADER
    ensures |r| == |packets|
  {
    seq(|packets|, i requires 0 <= i < |packets| => Arrival(RequestOf(PacketOf(packets[i]), behind(i)), now(i)))
  }

  // What the framer dispatches never asks for more than an event holds.
  lemma ReceivedIsBounded(rest: seq<byte>, chunk: seq<byte>, behind: nat -> Tail, now: nat -> Time)
    ensures var packets := Receive(rest, chunk).packets;
      && (forall i | 0 <= i < |packets| :: |packets[i]| >= HEADER)
      && AllBounded(Arrivals(packets, behind, now))
  {
    DispatchedIsFramed(rest + chunk);
    hide Parse, Framed, RequestOf, PacketOf, Bounded;
    var packets := Receive(rest, chunk).packets;
    forall i | 0 <= i < |packets| ensures |packets[i]| >= HEADER {
      FramedIsBounded(packets[i], behind(i));
    }
    forall i | 0 <= i < |packets| ensures Bounded(Arrivals(packets, behind, now)[i].req) {
      FramedIsBounded(packets[i], behind(i));
    }
  }

  lemma FramedIsBounded(packet: seq<byte>, behind: Tail)
    requires Framed(packet)
    ensures |packet| >= HEADER && Bounded(RequestOf(PacketOf(packet), behind))
  {
    hide HeaderOf, Nibble, FlagsOf, Field;
  }

  // The requests of one read behind a residue.
  function RequestsRead(rest: seq<byte>, chunk: seq<byte>, behind: nat -> Tail, now: nat -> Time): (r: seq<Arrival>)
    ensures AllBounded(r)
  {
    ReceivedIsBounded(rest, chunk, behind, now);
    Arrivals(Receive(rest, chunk).packets, behind, now)
  }

  // The request in a datagram.
  function DatagramRequest(buffer: seq<byte>): (req: Request)
    requires |buffer| == BUFFER_SIZE
    ensures Bounded(req)
  {
    var n := HEADER + PayloadSize(buffer);
    RequestOf(PacketOf(Masked(buffer[..n])), buffer[n..])
  }

  // ------------------------------------------------------------ what happens

  // Reads bring no more than there is room for, datagrams lie in their
  // buffer, and the program makes its own calls only.
  predicate Sound(w: World, e: Ready)
    requires WorldShape(w)
  {
    match e
    case Readable(c, Bytes(chunk), _, _) => |w.residues[c]| + |chunk| <= BUFFER_SIZE
    case Readable(_, _, _, _) => true
    case DatagramReady(_, buffer, _, _) => |buffer| == BUFFER_SIZE
    case Connecting(_, _) => true
    case Program(x) => !x.Packet? && !x.Datagram? && !x.Connection? && !x.Gone?
  }

  function Served(w: World, e: Ready): (w': World)
    requires WorldShape(w) && Sound(w, e)
    ensures WorldShape(w')
  {
    match e
    case Readable(c, TryAgain, _, _) => w
    case Readable(c, Broken, _, _) => w.(s := CloseClient(w.s, c))
    case Readable(c, Bytes(chunk), behind, now) =>
      if chunk == [] then w.(s := CloseClient(w.s, c))
      else World(Dispatched(w.s, c, RequestsRead(w.residues[c], chunk, behind, now)).s,
                 w.residues[c := Receive(w.residues[c], chunk).rest])
    case DatagramReady(addr, buffer, size, now) =>
      if size < HEADER || !HasMagic(buffer) then w
      else w.(s := DatagramProcessed(w.s, addr, DatagramRequest(buffer), now).s)
    case Connecting(fd, addr) => w.(s := Accepted(w.s, fd, addr).s)
    case Program(x) => w.(s := Step(w.s, x).s)
  }

  // What leaves the server meanwhile.
  function Sends(w: World, e: Ready): seq<Output>
    requires WorldShape(w) && Sound(w, e)
  {
    match e
    case Readable(c, Bytes(chunk), behind, now) =>
      if chunk == [] then [] else Dispatched(w.s, c, RequestsRead(w.residues[c], chunk, behind, now)).out
    case DatagramReady(addr, buffer, size, now) =>
      if size < HEADER || !HasMagic(buffer) then []
      else DatagramProcessed(w.s, addr, DatagramRequest(buffer), now).out
    case Program(x) => Step(w.s, x).out
    case _ => []
  }

  predicate AllSound(w: World, es: seq<Ready>)
    requires WorldShape(w)
    decreases |es|, 0
  {
    es == [] || (AllSound(w, es[..|es| - 1]) && Sound(ServedAll(w, es[..|es| - 1]), es[|es| - 1]))
  }

  function ServedAll(w: World, es: seq<Ready>): (w': World)
    requires WorldShape(w) && AllSound(w, es)
    ensures WorldShape(w')
    decreases |es|, 1
  {
    if es == [] then w else Served(ServedAll(w, es[..|es| - 1]), es[|es| - 1])
  }

  function AllSends(w: World, es: seq<Ready>): seq<Output>
    requires WorldShape(w) && AllSound(w, es)
  {
    if es == [] then []
    else AllSends(w, es[..|es| - 1]) + Sends(ServedAll(w, es[..|es| - 1]), es[|es| - 1])
  }

  // ----------------------------------------------------------- pieces of runs

  lemma {:induction false} RunConcat(s: State, xs: seq<Input>, ys: seq<Input>)
    requires Shape(s)
    ensures Run(s, xs + ys) == Run(Run(s, xs), ys)
    ensures LegalRun(s, xs + ys) <==> LegalRun(s, xs) && LegalRun(Run(s, xs), ys)
    decreases |ys|
  {
    hide Step, Legal, Shape;
    if ys == [] {
      assert xs + ys == xs;
    } else {
      var n := |ys| - 1;
      RunConcat(s, xs, ys[..n]);
      assert (xs + ys)[..|xs + ys| - 1] == xs + ys[..n];
    }
  }

  lemma RunOne(s: State, x: Input)
    requires Shape(s)
    ensures Run(s, [x]) == Step(s, x).s && (LegalRun(s, [x]) <==> Legal(s, x))
  {
    hide Step, Legal, Shape;
    assert [x][..0] == [];
  }

  // The packets of a read as inputs of the broker.
  function Packets(c: ClientIx, arrivals: seq<Arrival>): (xs: seq<Input>)
    requires Proper(arrivals)
    ensures |xs| == |arrivals|
  {
    seq(|arrivals|, i requires 0 <= i < |arrivals| =>
      assert WellFormed(Call.Packet(c, arrivals[i].req, arrivals[i].now));
      Call.Packet(c, arrivals[i].req, arrivals[i].now))
  }

  // Dispatching a read is running its packets, and the run is legal when they
  // all find their client live.
  lemma {:induction false} DispatchedIsRun(s: State, c: ClientIx, arrivals: seq<Arrival>)
    requires Shape(s) && Proper(arrivals)
    ensures Dispatched(s, c, arrivals).s == Run(s, Packets(c, arrivals))
    ensures LegalRun(s, Packets(c, arrivals)) <==> ReachesLive(s, c, arrivals)
    decreases |arrivals|
  {
    hide Processed, Live, Shape, Run, LegalRun, Bounded, NamesOk;
    if arrivals == [] {
      NothingRuns(s, Packets(c, arrivals));
    } else {
      var first: Input := Packets(c, arrivals)[0];
      var rest := arrivals[1..];
      assert Packets(c, arrivals) == [first] + Packets(c, rest);
      RunOne(s, first);
      RunConcat(s, [first], Packets(c, rest));
      DispatchedIsRun(Processed(s, c, arrivals[0].req, arrivals[0].now).s, c, rest);
    }
  }

  lemma NothingRuns(s: State, none: seq<Input>)
    requires Shape(s) && none == []
    ensures Run(s, none) == s && LegalRun(s, none)
  {
  }

  // ------------------------------------------------------------- whole loops

  // No identifier that arrives is the free-slot marker.
  predicate NamesProper(w: World, e: Ready)
    requires WorldShape(w) && Sound(w, e)
  {
    match e
    case Readable(c, Bytes(chunk), behind, now) => Proper(RequestsRead(w.residues[c], chunk, behind, now))
    case Readable(_, _, _, _) => true
    case DatagramReady(_, buffer, _, _) => NamesOk(DatagramRequest(buffer))
    case Connecting(_, _) => true
    case Program(_) => true
  }

  // What the broker is given when the server's loop is woken.
  function Inputs(w: World, e: Ready): seq<Input>
    requires WorldShape(w) && Sound(w, e) && NamesProper(w, e)
  {
    match e
    case Readable(c, TryAgain, _, _) => []
    case Readable(c, Broken, _, _) => [Gone(c)]
    case Readable(c, Bytes(chunk), behind, now) =>
      if chunk == [] then [Gone(c)] else Packets(c, RequestsRead(w.residues[c], chunk, behind, now))
    case DatagramReady(addr, buffer, size, now) =>
      if size < HEADER || !HasMagic(buffer) then []
      else
        assert WellFormed(Datagram(addr, DatagramRequest(buffer), now));
        [Datagram(addr, DatagramRequest(buffer), now)]
    case Connecting(fd, addr) => [Connection(fd, addr)]
    case Program(x) => [x]
  }

  predicate AllProper(w: World, es: seq<Ready>)
    requires WorldShape(w) && AllSound(w, es)
  {
    es == [] || (AllProper(w, es[..|es| - 1]) && NamesProper(ServedAll(w, es[..|es| - 1]), es[|es| - 1]))
  }

  function AllInputs(w: World, es: seq<Ready>): seq<Input>
    requires WorldShape(w) && AllSound(w, es) && AllProper(w, es)
  {
    if es == [] then []
    else AllInputs(w, es[..|es| - 1]) + Inputs(ServedAll(w, es[..|es| - 1]), es[|es| - 1])
  }

  // Sockets wake the loop for live clients, and no read holds an introduction
  // with the wrong version before its last packet.
  predicate OrderlyRead(w: World, e: Ready)
    requires WorldShape(w) && Sound(w, e)
  {
    match e
    case Readable(c, Broken, _, _) => Live(w.s, c)
    case Readable(c, Bytes(chunk), behind, now) =>
      var arrivals := RequestsRead(w.residues[c], chunk, behind, now);
      && (chunk == [] || arrivals != [] ==> Live(w.s, c))
      && (chunk != [] ==> forall k | 0 <= k < |arrivals| - 1 :: !Rejects(arrivals[k].req))
    case _ => true
  }

  predicate Orderly(w: World, es: seq<Ready>)
    requires WorldShape(w) && AllSound(w, es)
  {
    es == [] || (Orderly(w, es[..|es| - 1]) && OrderlyRead(ServedAll(w, es[..|es| - 1]), es[|es| - 1]))
  }

  lemma ServedIsRun(w: World, e: Ready)
    requires WorldShape(w) && Sound(w, e) && NamesProper(w, e)
    ensures Served(w, e).s == Run(w.s, Inputs(w, e))
    ensures Inv(w.s) ==> (LegalRun(w.s, Inputs(w, e)) <==> OrderlyRead(w, e))
  {
    hide Dispatched, Processed, DatagramProcessed, Accepted, CloseClient, Run, LegalRun, RequestsRead;
    hide DatagramRequest, Inv, Rejects;
    hide Shape, Proper, Live, ReachesLive, Packets;
    match e
    case Readable(c, TryAgain, _, _) => NothingRuns(w.s, []);
    case Readable(c, Broken, _, _) => RunOne(w.s, Gone(c));
    case Readable(c, Bytes(chunk), behind, now) =>
      if chunk == [] {
        RunOne(w.s, Gone(c));
      } else {
        ReadIsRun(w.s, c, RequestsRead(w.residues[c], chunk, behind, now));
      }
    case DatagramReady(addr, buffer, size, now) =>
      NothingRuns(w.s, []);
      if size >= HEADER && HasMagic(buffer) {
        RunOne(w.s, Inputs(w, e)[0]);
      }
    case Connecting(fd, addr) => RunOne(w.s, Connection(fd, addr));
    case Program(x) => RunOne(w.s, x);
  }

  lemma ReadIsRun(s: State, c: ClientIx, arrivals: seq<Arrival>)
    requires Shape(s) && Proper(arrivals)
    ensures Dispatched(s, c, arrivals).s == Run(s, Packets(c, arrivals))
    ensures Inv(s) ==>
      (LegalRun(s, Packets(c, arrivals))
       <==> (arrivals != [] ==> Live(s, c)) && forall k | 0 <= k < |arrivals| - 1 :: !Rejects(arrivals[k].req))
  {
    hide Run, LegalRun, Packets, Dispatched, Rejects, Live, Processed, Inv, Shape, Proper;
    DispatchedIsRun(s, c, arrivals);
    if Inv(s) && Live(s, c) {
      ReachesLiveIff(s, c, arrivals);
    }
  }

  // The server's loop goes through a run of the broker, whatever becomes
  // readable; and the run is legal, so that all that is proved about runs
  // holds of the server, exactly when the reads are orderly.
  lemma {:induction false} LoopIsRun(w: World, es: seq<Ready>)
    requires WorldShape(w) && AllSound(w, es) && AllProper(w, es)
    ensures ServedAll(w, es).s == Run(w.s, AllInputs(w, es))
    ensures Inv(w.s) ==> (LegalRun(w.s, AllInputs(w, es)) <==> Orderly(w, es))
  {
    hide Served, Inputs, Run, LegalRun, OrderlyRead, Inv, Shape, Sound, NamesProper;
    if es == [] {
      NothingRuns(w.s, []);
    } else {
      var front, e := es[..|es| - 1], es[|es| - 1];
      var v := ServedAll(w, front);
      LoopIsRun(w, front);
      ServedIsRun(v, e);
      RunConcat(w.s, AllInputs(w, front), Inputs(v, e));
      if Inv(w.s) && LegalRun(w.s, AllInputs(w, front)) {
        RunKeepsInv(w.s, AllInputs(w, front));
      }
    }
  }
}
