// A sender that goes on after a failed send, as the program's callers do: a
// packet of which only a part was taken is continued by the next one.
module TornSends {
  import opened Bytes
  import opened Framing
  import opened FramingLimits
  import opened Headers
  import opened Sending
  import opened Link

  // One send: the packet, and how many of its bytes were taken.
  datatype Attempt = Attempt(frame: seq<byte>, taken: nat)

  type Sent = a: Attempt | a.taken <= |a.frame| witness Attempt([], 0)

  datatype Fate = Whole | Torn | Nothing

  function FateOf(a: Sent): Fate {
    if a.taken == |a.frame| then Fate.Whole else if a.taken == 0 then Nothing else Torn
  }

  // What is on the wire.
  function Carried(xs: seq<Sent>): seq<byte> {
    if xs == [] then [] else xs[0].frame[..xs[0].taken] + Carried(xs[1..])
  }

  // The packets that were sent as a whole.
  function SentWhole(xs: seq<Sent>): seq<seq<byte>> {
    if xs == [] then [] else (if FateOf(xs[0]).Whole? then [xs[0].frame] else []) + SentWhole(xs[1..])
  }

  // The sender: packet after packet, whatever became of the one before.
  method KeepSending(socket: Socket, packets: seq<Packet>) returns (outcomes: seq<Outcome>, ghost xs: seq<Sent>)
    requires forall i | 0 <= i < |socket.answers| :: socket.answers[i] >= -1
    modifies socket
    ensures |xs| == |packets| == |outcomes| && socket.wire == old(socket.wire) + Carried(xs)
    ensures forall i | 0 <= i < |packets| ::
        xs[i].frame == PacketBytes(packets[i]) && (outcomes[i] == Done <==> FateOf(xs[i]).Whole?)
  {
    hide PacketBytes, Accepted;
    outcomes, xs := [], [];
    var i := 0;
    while i < |packets|
      invariant 0 <= i <= |packets| && |outcomes| == |xs| == i
      invariant forall i | 0 <= i < |socket.answers| :: socket.answers[i] >= -1
      invariant socket.wire == old(socket.wire) + Carried(xs)
      invariant forall k | 0 <= k < i ::
          xs[k].frame == PacketBytes(packets[k]) && (outcomes[k] == Done <==> FateOf(xs[k]).Whole?)
    {
      ghost var before := socket.wire;
      ghost var frame := PacketBytes(packets[i]);
      ghost var x: Sent := Attempt(frame, Accepted(|frame|, socket.answers).0);
      var outcome := BlockingSend(socket, PacketBytes(packets[i]));
      CarriedSnoc(xs, x);
      Grown(before, frame, x.taken);
      outcomes := outcomes + [outcome];
      xs := xs + [x];
      i := i + 1;
    }
  }

  lemma Grown(wire: seq<byte>, frame: seq<byte>, n: nat)
    requires n <= |frame|
    ensures wire + frame[..n] == wire + frame <==> n == |frame|
  {
    assert |wire + frame[..n]| == |wire| + n;
  }

  lemma {:induction false} CarriedSnoc(xs: seq<Sent>, x: Sent)
    ensures Carried(xs + [x]) == Carried(xs) + x.frame[..x.taken]
    decreases |xs|
  {
    if xs == [] {
      assert (xs + [x])[1..] == [];
    } else {
      CarriedSnoc(xs[1..], x);
      assert (xs + [x])[1..] == xs[1..] + [x];
    }
  }

  // ---------------------------------------------------------- what arrives

  // No send that takes anything comes after one that took only a part.
  predicate StopsWhenTorn(fates: seq<Fate>) {
    forall i, j | 0 <= i < j < |fates| :: fates[i].Torn? ==> fates[j].Nothing?
  }

  predicate Matches(xs: seq<Sent>, fates: seq<Fate>) {
    |xs| == |fates| && forall i | 0 <= i < |xs| :: Framed(xs[i].frame) && FateOf(xs[i]) == fates[i]
  }

  // Whatever was sent with these fates, and however the network cuts it into
  // reads of at least a header, what was sent as a whole arrives, and nothing
  // else.
  ghost predicate WholeOnesArrive(fates: seq<Fate>) {
    forall xs, chunks |
      && Matches(xs, fates)
      && Concat(chunks) == Carried(xs)
      && (forall i | 0 <= i < |chunks| :: |chunks[i]| >= HEADER)
      :: Session([], chunks).packets == SentWhole(xs)
  }

  lemma PartIsSilent(frame: seq<byte>, n: nat)
    requires Framed(frame) && n < |frame|
    ensures Parse(frame[..n]).packets == []
  {
    var s := frame[..n];
    if n >= HEADER {
      assert HasMagic(s) && PayloadSize(s) == PayloadSize(frame);
    }
  }

  lemma {:induction false} NothingIsNothing(xs: seq<Sent>, fates: seq<Fate>)
    requires Matches(xs, fates) && forall i | 0 <= i < |fates| :: fates[i].Nothing?
    ensures Carried(xs) == [] && SentWhole(xs) == []
    decreases |xs|
  {
    if xs == [] {
    } else {
      assert fates[0].Nothing?;
      NothingIsNothing(xs[1..], fates[1..]);
    }
  }

  lemma {:induction false} StoppedInTime(xs: seq<Sent>, fates: seq<Fate>)
    requires Matches(xs, fates) && StopsWhenTorn(fates)
    ensures Parse(Carried(xs)).packets == SentWhole(xs)
    decreases |xs|
  {
    hide Parse, Framed;
    if xs == [] {
      StopStarved([]);
    } else {
      var frame, n, rest := xs[0].frame, xs[0].taken, Carried(xs[1..]);
      match fates[0] {
        case Whole =>
          StoppedInTime(xs[1..], fates[1..]);
          assert frame[..n] == frame;
          FramedPacketFirst(frame, rest);
        case Nothing =>
          StoppedInTime(xs[1..], fates[1..]);
          assert [] + rest == rest;
        case Torn =>
          NothingIsNothing(xs[1..], fates[1..]);
          PartIsSilent(frame, n);
          assert frame[..n] + [] == frame[..n];
      }
    }
  }

  // A packet of 60 bytes, and one of 61.
  function Short(): (packet: seq<byte>)
    ensures Framed(packet) && |packet| == HEADER
  {
    seq(HEADER, i => if i == 0 then MAGIC else if i == 59 then MAGIC_DATA else 0)
  }

  function Long(): (packet: seq<byte>)
    ensures Framed(packet) && |packet| == HEADER + 1
  {
    seq(HEADER + 1, i => if i == 0 then MAGIC else if i == 57 then 1 else if i == 59 then MAGIC_DATA else 0)
  }

  function Victim(fate: Fate): (x: Sent)
    ensures FateOf(x) == fate && Framed(x.frame) && |x.frame| == HEADER
  {
    match fate
    case Whole => Attempt(Short(), HEADER)
    case Torn => Attempt(Short(), 1)
    case Nothing => Attempt(Short(), 0)
  }

  // Short packets, but for the one that is torn first: it is long, and its
  // header is taken.
  function Victims(fates: seq<Fate>, first: int): (xs: seq<Sent>)
    requires 0 <= first < |fates| ==> fates[first].Torn?
    ensures Matches(xs, fates)
    ensures forall i | 0 <= i < |xs| && FateOf(xs[i]).Whole? :: |xs[i].frame| == HEADER
  {
    seq(|fates|, i requires 0 <= i < |fates| => if i == first then Attempt(Long(), HEADER) else Victim(fates[i]))
  }

  lemma {:induction false} SentAreThere(xs: seq<Sent>)
    ensures forall p | p in SentWhole(xs) :: exists i :: 0 <= i < |xs| && FateOf(xs[i]).Whole? && xs[i].frame == p
  {
    if xs == [] {
    } else {
      SentAreThere(xs[1..]);
      forall p | p in SentWhole(xs) ensures exists i :: 0 <= i < |xs| && FateOf(xs[i]).Whole? && xs[i].frame == p {
        if p in SentWhole(xs[1..]) {
          var i :| 0 <= i < |xs[1..]| && FateOf(xs[1..][i]).Whole? && xs[1..][i].frame == p;
          assert xs[i + 1] == xs[1..][i];
        }
      }
    }
  }

  lemma {:induction false} SomethingCarried(xs: seq<Sent>, j: nat)
    requires j < |xs| && xs[j].taken > 0
    ensures Carried(xs) != []
    decreases j
  {
    if j > 0 {
      SomethingCarried(xs[1..], j - 1);
    }
  }

  // A header that waits for one byte takes it from the next packet.
  lemma HeaderTakesMore(t: seq<byte>)
    requires t != []
    ensures Parse(Long()[..HEADER] + t).packets != [] && |Parse(Long()[..HEADER] + t).packets[0]| == HEADER + 1
  {
    var s := Long()[..HEADER] + t;
    assert HasMagic(s) && PayloadSize(s) == 1;
    assert Look(s).Whole?;
  }

  // So a packet of 61 bytes arrives, and none was sent as a whole.
  lemma {:induction false} VictimsArriveWrong(fates: seq<Fate>, first: nat, j: nat) returns (k: nat)
    requires first < j < |fates| && fates[first].Torn? && !fates[j].Nothing?
    requires forall i | 0 <= i < first :: !fates[i].Torn?
    ensures var all := Carried(Victims(fates, first));
      |all| >= HEADER && k < |Parse(all).packets| && |Parse(all).packets[k]| == HEADER + 1
    decreases first
  {
    hide Framed, Parse;
    var xs := Victims(fates, first);
    var rest := Carried(xs[1..]);
    if first == 0 {
      k := 0;
      assert FateOf(xs[j]) == fates[j];
      SomethingCarried(xs[1..], j - 1);
      HeaderTakesMore(rest);
    } else {
      assert xs[1..] == Victims(fates[1..], first - 1);
      k := VictimsArriveWrong(fates[1..], first - 1, j - 1);
      if fates[0].Whole? {
        assert xs[0].frame[..HEADER] == Short();
        FramedPacketFirst(Short(), rest);
        k := k + 1;
      } else {
        assert [] + rest == rest;
      }
    }
  }

  function FirstTorn(fates: seq<Fate>): (i: nat)
    ensures i <= |fates| && (i < |fates| ==> fates[i].Torn?) && forall k | 0 <= k < i :: !fates[k].Torn?
  {
    if fates == [] || fates[0].Torn? then 0 else 1 + FirstTorn(fates[1..])
  }

  // The exact condition for a sender that goes on: for all packets and all
  // cuts, exactly the packets that were sent as a whole arrive, if and only if
  // nothing is taken of any packet behind one of which a part was taken.
  lemma WholeOnesArriveIff(fates: seq<Fate>)
    ensures WholeOnesArrive(fates) <==> StopsWhenTorn(fates)
  {
    hide Parse, Session, Concat, Carried, SentWhole, Framed;
    if StopsWhenTorn(fates) {
      forall xs, chunks |
        && Matches(xs, fates)
        && Concat(chunks) == Carried(xs)
        && (forall i | 0 <= i < |chunks| :: |chunks[i]| >= HEADER)
        ensures Session([], chunks).packets == SentWhole(xs)
      {
        ChunkingIndependence(chunks, chunks);
        StoppedInTime(xs, fates);
      }
    } else {
      var i, j :| 0 <= i < j < |fates| && fates[i].Torn? && !fates[j].Nothing?;
      var first := FirstTorn(fates);
      var xs := Victims(fates, first);
      var k := VictimsArriveWrong(fates, first, j);
      SentAreThere(xs);
      var chunks := [Carried(xs)];
      OneChunk(chunks[0]);
      ChunkingIndependence(chunks, chunks);
      assert Session([], chunks).packets[k] in Session([], chunks).packets;
      assert Session([], chunks).packets != SentWhole(xs);
    }
  }
}
