// One client among all others in the server's loop: which requests the broker
// gets for it, and that they are what it called for.
module BrokerArrivals {
  import opened Bytes
  import opened Framing
  import opened FramingLimits
  import opened Headers
  import opened Link
  import opened SyncClock
  import opened Broker
  import opened BrokerInvariant
  import opened BrokerRuns
  import opened BrokerCounting
  import opened BrokerLiveness
  import opened BrokerReads
  import Calls = ClientRequests

  // The reads from one client's socket.
  function ReadFor(e: Ready, c: ClientIx): seq<seq<byte>> {
    if e.Readable? && e.c == c && e.incoming.Bytes? then [e.incoming.chunk] else []
  }

  function ReadsFor(es: seq<Ready>, c: ClientIx): seq<seq<byte>> {
    if es == [] then [] else ReadsFor(es[..|es| - 1], c) + ReadFor(es[|es| - 1], c)
  }

  // The requests that the broker gets in packets of one client.
  function Asked(xs: seq<Input>, c: ClientIx): seq<Request> {
    if xs == [] then []
    else
      var x := xs[|xs| - 1];
      Asked(xs[..|xs| - 1], c) + if x.Packet? && x.c == c then [x.req] else []
  }

  lemma {:induction false} AskedConcat(xs: seq<Input>, ys: seq<Input>, c: ClientIx)
    ensures Asked(xs + ys, c) == Asked(xs, c) + Asked(ys, c)
    decreases |ys|
  {
    if ys == [] {
      assert xs + ys == xs;
    } else {
      var n := |ys| - 1;
      AskedConcat(xs, ys[..n], c);
      assert (xs + ys)[..|xs + ys| - 1] == xs + ys[..n];
    }
  }

  // These requests are in these packets, whatever lay behind them.
  ghost predicate InPackets(reqs: seq<Request>, packets: seq<seq<byte>>) {
    && |reqs| == |packets|
    && forall i | 0 <= i < |reqs| :: InPacket(reqs[i], packets[i])
  }

  ghost predicate InPacket(req: Request, packet: seq<byte>) {
    |packet| >= HEADER && exists behind: Tail :: req == RequestOf(PacketOf(packet), behind)
  }

  lemma {:induction false} SessionSnoc(rest: seq<byte>, chunks: seq<seq<byte>>, chunk: seq<byte>)
    ensures var before := Session(rest, chunks);
      Session(rest, chunks + [chunk]) == Receive(before.rest, chunk).After(before.packets)
    decreases |chunks|
  {
    hide Receive;
    if chunks == [] {
      assert (chunks + [chunk])[1..] == [];
      var p := Receive(rest, chunk);
      assert p.packets + [] == p.packets && [] + p.packets == p.packets;
    } else {
      var p := Receive(rest, chunks[0]);
      SessionSnoc(p.rest, chunks[1..], chunk);
      assert (chunks + [chunk])[1..] == chunks[1..] + [chunk];
      var before := Session(p.rest, chunks[1..]);
      AfterAfter(Receive(before.rest, chunk), p.packets, before.packets);
    }
  }

  lemma {:induction false} AskedOfPackets(c: ClientIx, arrivals: seq<Arrival>, d: ClientIx)
    requires Proper(arrivals)
    ensures Asked(Packets(c, arrivals), d)
         == if c == d then seq(|arrivals|, i requires 0 <= i < |arrivals| => arrivals[i].req) else []
    decreases |arrivals|
  {
    if arrivals == [] {
    } else {
      var n := |arrivals| - 1;
      AskedOfPackets(c, arrivals[..n], d);
      assert Packets(c, arrivals)[..n] == Packets(c, arrivals[..n]);
    }
  }

  lemma ReadIsInPackets(rest: seq<byte>, chunk: seq<byte>, behind: nat -> Tail, now: nat -> Time)
    ensures var arrivals := RequestsRead(rest, chunk, behind, now);
      InPackets(seq(|arrivals|, i requires 0 <= i < |arrivals| => arrivals[i].req), Receive(rest, chunk).packets)
  {
    hide RequestOf, PacketOf, Receive;
    ReceivedIsBounded(rest, chunk, behind, now);
  }

  lemma InPacketsConcat(reqs: seq<Request>, packets: seq<seq<byte>>, more: seq<Request>, morePackets: seq<seq<byte>>)
    requires InPackets(reqs, packets) && InPackets(more, morePackets)
    ensures InPackets(reqs + more, packets + morePackets)
  {
    hide InPacket;
  }

  lemma NoneInPackets(packets: seq<seq<byte>>)
    ensures packets == [] ==> InPackets([], packets)
  {
  }

  // What one wake-up does to the residue of a slot, and what it brings the
  // broker for it.
  lemma OneWakeUp(w: World, e: Ready, c: ClientIx)
    requires WorldShape(w) && Sound(w, e) && NamesProper(w, e)
    ensures ReadFor(e, c) == [] ==> Served(w, e).residues[c] == w.residues[c] && Asked(Inputs(w, e), c) == []
    ensures ReadFor(e, c) != [] ==>
      var p := Receive(w.residues[c], ReadFor(e, c)[0]);
      Served(w, e).residues[c] == p.rest && InPackets(Asked(Inputs(w, e), c), p.packets)
  {
    hide Receive, InPackets, Dispatched, DatagramProcessed, Accepted, CloseClient, Step, RequestsRead;
    hide DatagramRequest, Shape;
    assert forall x: Input :: [x][..0] == [];
    match e
    case Readable(d, Bytes(chunk), behind, now) =>
      if chunk == [] {
        NothingReceived(w.residues[d]);
      } else {
        AskedOfPackets(d, RequestsRead(w.residues[d], chunk, behind, now), c);
        ReadIsInPackets(w.residues[d], chunk, behind, now);
      }
    case _ =>
  }

  lemma NothingReceived(rest: seq<byte>)
    ensures Receive(rest, []) == Parsed([], rest) && InPackets([], Receive(rest, []).packets)
  {
  }

  // The loop, seen by one client slot: among all wake-ups for all others, its
  // residue and the requests that the broker gets for it are those of a
  // session of its own.
  lemma {:induction false} LoopIsSession(w: World, es: seq<Ready>, c: ClientIx)
    requires WorldShape(w) && AllSound(w, es) && AllProper(w, es)
    ensures var own := Session(w.residues[c], ReadsFor(es, c));
      && ServedAll(w, es).residues[c] == own.rest
      && InPackets(Asked(AllInputs(w, es), c), own.packets)
    decreases |es|
  {
    hide Served, Inputs, ReadFor, Sound, NamesProper, Shape, InPackets, Receive;
    if es == [] {
      NoneInPackets([]);
    } else {
      var front, e := es[..|es| - 1], es[|es| - 1];
      var v := ServedAll(w, front);
      LoopIsSession(w, front, c);
      OneWakeUp(v, e, c);
      AskedConcat(AllInputs(w, front), Inputs(v, e), c);
      AtMostOneRead(e, c);
      var own := Session(w.residues[c], ReadsFor(front, c));
      if ReadFor(e, c) == [] {
        assert ReadsFor(front, c) + [] == ReadsFor(front, c);
        assert Asked(AllInputs(w, front), c) + [] == Asked(AllInputs(w, front), c);
      } else {
        var p := Receive(own.rest, ReadFor(e, c)[0]);
        SessionSnoc(w.residues[c], ReadsFor(front, c), ReadFor(e, c)[0]);
        InPacketsConcat(Asked(AllInputs(w, front), c), own.packets, Asked(Inputs(v, e), c), p.packets);
      }
    }
  }

  lemma AtMostOneRead(e: Ready, c: ClientIx)
    ensures ReadFor(e, c) == [] || ReadFor(e, c) == [ReadFor(e, c)[0]]
  {
  }

  // From one client's calls to the broker, among everything that all others
  // do: behind a residue without 'S', and in reads of at least a header, the
  // requests that the broker gets in this client's packets are what it called
  // for, in order.
  lemma CallsReachTheBroker(w: World, es: seq<Ready>, c: ClientIx, hs: seq<Header>, calls: seq<Calls.ClientCall>,
                            garbage: seq<byte>)
    requires WorldShape(w) && AllSound(w, es) && AllProper(w, es)
    requires Parse(w.residues[c]) == Parsed([], w.residues[c]) && MAGIC !in w.residues[c]
    requires |hs| == |calls|
    requires forall i | 0 <= i < |calls| :: Calls.Backed(calls[i]) && Calls.Carried(calls[i])
    requires MAGIC !in garbage
    requires Concat(ReadsFor(es, c)) == garbage + Wire(Calls.BuiltAll(hs, calls))
    requires forall i | 0 <= i < |ReadsFor(es, c)| :: |ReadsFor(es, c)[i]| >= HEADER
    ensures var asked := Asked(AllInputs(w, es), c);
      |asked| == |calls| && forall i | 0 <= i < |calls| :: asked[i] == Calls.Meant(calls[i])
  {
    hide Session, Concat, Wire, Parse, PacketOf, RequestOf, Shape, AllSound, AllProper, AllInputs, ReadsFor, Asked;
    hide Calls.Meant, Calls.Backed, Calls.Carried;
    var chunks, asked := ReadsFor(es, c), Asked(AllInputs(w, es), c);
    LoopIsSession(w, es, c);
    StaleResidueHarmlessIff(w.residues[c]);
    var packets := Session([], chunks).packets;
    assert Session(w.residues[c], chunks).packets == packets;
    var none: Tail := seq(10, _ => 0);
    Calls.CallsArrive(hs, calls, garbage, chunks, none);
    forall i | 0 <= i < |calls| ensures asked[i] == Calls.Meant(calls[i]) {
      assert InPacket(asked[i], packets[i]);
      var behind: Tail :| asked[i] == RequestOf(PacketOf(packets[i]), behind);
      Calls.CallsArrive(hs, calls, garbage, chunks, behind);
    }
  }

  // ------------------------------------------------------ from the beginning

  // A server as it is created, and wake-ups without the marker as a name and
  // with orderly reads only.
  predicate StartsWell(w: World, es: seq<Ready>)
    requires WorldShape(w) && AllSound(w, es)
  {
    Initial(w.s) && AllProper(w, es) && Orderly(w, es)
  }

  // What holds in every reachable state holds after the loop.
  lemma OrderlyLoopReaches(w: World, es: seq<Ready>)
    requires WorldShape(w) && AllSound(w, es) && StartsWell(w, es)
    ensures Truthful(ServedAll(w, es).s)
  {
    hide Truthful, Inv, Initial, Orderly, AllProper, AllSound, AllInputs, Run, LegalRun, Shape;
    InitialInv(w.s);
    LoopIsRun(w, es);
    ReachableStates(w.s, AllInputs(w, es));
  }
}
