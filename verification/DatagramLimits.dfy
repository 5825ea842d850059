// Requests that are read beyond what was received: an announcement runs past
// its packet, and the size field of a datagram is not compared with its
// length. Both have an exact condition.
module DatagramLimits {
  import opened Bytes
  import opened Framing
  import opened Headers
  import opened Broker
  import opened BrokerReads

  predicate Announcing(p: Packet) {
    Nibble(p.header.typ, 0) == MSG_CHANNEL && Nibble(p.header.typ, 12) == 1
  }

  lemma TicketFields(p: Packet, behind: Tail)
    requires Announcing(p)
    ensures var bs, req := p.payload + behind, RequestOf(p, behind);
      req.Announce? && req.id == p.header.id && req.port == LE(bs[4..6]) && req.ticketFlags == LE(bs[6..10])
  {
    PowerOfEight();
    hide Nibble, Pow256, LE;
  }

  // What lies behind a packet has no influence on what it asks for, if and
  // only if it is no announcement or carries a whole ticket.
  lemma BehindIgnoredIff(p: Packet)
    ensures (forall a: Tail, b: Tail :: RequestOf(p, a) == RequestOf(p, b)) <==> !Announcing(p) || |p.payload| >= 10
  {
    if Announcing(p) {
      if |p.payload| >= 10 {
        forall a: Tail, b: Tail ensures RequestOf(p, a) == RequestOf(p, b) {
          TicketFields(p, a);
          TicketFields(p, b);
          assert (p.payload + a)[4..6] == (p.payload + b)[4..6] && (p.payload + a)[6..10] == (p.payload + b)[6..10];
        }
      } else {
        var a: Tail, b: Tail := seq(10, _ => 0), seq(10, _ => 1);
        hide RequestOf, LE;
        TicketFields(p, a);
        TicketFields(p, b);
        var u, v := (p.payload + a)[6..10], (p.payload + b)[6..10];
        assert u[3] == 0 && v[3] == 1;
        if LE(u) == LE(v) {
          LEInjective(u, v);
        }
        assert RequestOf(p, a) != RequestOf(p, b);
      }
    } else {
      hide Nibble, Field;
    }
  }

  // The packet that is read from the buffer of a datagram, and what is read
  // as lying behind it: together the buffer.
  function PacketIn(buffer: seq<byte>): Packet
    requires |buffer| == BUFFER_SIZE
  {
    PacketOf(Masked(buffer[..HEADER + PayloadSize(buffer)]))
  }

  function BehindIn(buffer: seq<byte>): Tail
    requires |buffer| == BUFFER_SIZE
  {
    buffer[HEADER + PayloadSize(buffer)..]
  }

  lemma DatagramParts(buffer: seq<byte>)
    requires |buffer| == BUFFER_SIZE
    ensures var p := PacketIn(buffer);
      && DatagramRequest(buffer) == RequestOf(p, BehindIn(buffer))
      && p.header == HeaderOf(Masked(buffer[..HEADER]))
      && p.payload == buffer[HEADER..HEADER + PayloadSize(buffer)]
      && p.payload + BehindIn(buffer) == buffer[HEADER..]
  {
    hide RequestOf, Field, IdOfBytes;
    var n := HEADER + PayloadSize(buffer);
    var bs, front := Masked(buffer[..n]), Masked(buffer[..HEADER]);
    assert front == bs[..HEADER];
    HeaderInFront(bs);
    assert bs[HEADER..] == buffer[HEADER..n];
  }

  lemma HeaderInFront(bs: seq<byte>)
    requires |bs| >= HEADER
    ensures HeaderOf(bs) == HeaderOf(bs[..HEADER])
  {
    hide IdOfBytes, LE, Pow256;
    var h := bs[..HEADER];
    assert h[1..5] == bs[1..5] && h[5..9] == bs[5..9] && h[9..41] == bs[9..41] && h[41..45] == bs[41..45];
    assert h[45..49] == bs[45..49] && h[49..57] == bs[49..57] && h[57..59] == bs[57..59];
  }

  lemma Kinds(p: Packet, behind: Tail)
    ensures RequestOf(p, behind).Write? <==> Nibble(p.header.typ, 0) == MSG_WRITE
    ensures RequestOf(p, behind).Write? ==> RequestOf(p, behind).data == p.payload
    ensures RequestOf(p, behind).Announce? <==> Announcing(p)
  {
    hide Nibble, Field, FlagsOf;
  }

  lemma Part(s: seq<byte>, a: nat, b: nat, c: nat, d: nat)
    requires a <= b <= |s| && c <= d <= b - a
    ensures s[a..b][c..d] == s[a + c..a + d]
  {
    var whole, part := s[a..b], s[a + c..a + d];
    forall i | 0 <= i < d - c ensures whole[c..d][i] == part[i] {
      assert whole[c..d][i] == whole[c + i] == s[a + (c + i)] && part[i] == s[a + c + i];
    }
  }

  // Packets with one header ask for the same as long as the payloads that are
  // looked at are the same.
  lemma SameRequest(p: Packet, a: Tail, q: Packet, b: Tail)
    requires p.header == q.header && |p.payload| == |q.payload|
    requires Nibble(p.header.typ, 0) == MSG_WRITE ==> p.payload == q.payload
    requires Announcing(p) ==> (p.payload + a)[4..10] == (q.payload + b)[4..10]
    ensures RequestOf(p, a) == RequestOf(q, b)
  {
    if Announcing(p) {
      TicketFields(p, a);
      TicketFields(q, b);
      var u, v := p.payload + a, q.payload + b;
      Part(u, 4, 10, 0, 2); Part(v, 4, 10, 0, 2);
      Part(u, 4, 10, 2, 6); Part(v, 4, 10, 2, 6);
    } else {
      hide Nibble, Field, FlagsOf;
    }
  }

  // What a request takes from behind the header was received.
  predicate Covered(req: Request, payloadSize: nat, size: nat) {
    (req.Write? ==> HEADER + payloadSize <= size) && (req.Announce? ==> HEADER + 10 <= size)
  }

  predicate SameReceived(buffer: seq<byte>, other: seq<byte>, size: nat)
    requires |buffer| == BUFFER_SIZE && size <= BUFFER_SIZE
  {
    |other| == BUFFER_SIZE && other[..size] == buffer[..size]
  }

  lemma SameHeader(buffer: seq<byte>, other: seq<byte>, size: nat)
    requires |buffer| == BUFFER_SIZE && HEADER <= size <= BUFFER_SIZE && SameReceived(buffer, other, size)
    ensures PayloadSize(other) == PayloadSize(buffer)
    ensures Masked(other[..HEADER]) == Masked(buffer[..HEADER])
    ensures forall k | HEADER <= k <= size :: other[HEADER..k] == buffer[HEADER..k]
  {
    assert forall i | 0 <= i < size :: other[i] == other[..size][i] && buffer[i] == buffer[..size][i];
  }

  lemma CoveredIsEnough(buffer: seq<byte>, other: seq<byte>, size: nat)
    requires |buffer| == BUFFER_SIZE && HEADER <= size <= BUFFER_SIZE && SameReceived(buffer, other, size)
    requires Covered(DatagramRequest(buffer), PayloadSize(buffer), size)
    ensures DatagramRequest(other) == DatagramRequest(buffer)
  {
    hide DatagramRequest, RequestOf, Masked, PayloadSize, HeaderOf, Nibble, PacketIn, BehindIn;
    SameHeader(buffer, other, size);
    DatagramParts(buffer);
    DatagramParts(other);
    var p, q := PacketIn(buffer), PacketIn(other);
    var a, b := BehindIn(buffer), BehindIn(other);
    Kinds(p, a);
    if Announcing(p) {
      Part(buffer, HEADER, HEADER + 10, 4, 10);
      Part(other, HEADER, HEADER + 10, 4, 10);
      assert buffer[HEADER..] == buffer[HEADER..|buffer|] && other[HEADER..] == other[HEADER..|other|];
      Part(buffer, HEADER, |buffer|, 4, 10);
      Part(other, HEADER, |other|, 4, 10);
    }
    SameRequest(p, a, q, b);
  }

  // A buffer with another byte at one place.
  function Changed(buffer: seq<byte>, at: nat): (other: seq<byte>)
    requires at < |buffer|
    ensures |other| == |buffer| && other[at] != buffer[at]
    ensures forall i | 0 <= i < |buffer| && i != at :: other[i] == buffer[i]
  {
    buffer[at := (buffer[at] as int + 1) % 256]
  }

  lemma UncoveredShows(buffer: seq<byte>, size: nat) returns (other: seq<byte>)
    requires |buffer| == BUFFER_SIZE && HEADER <= size <= BUFFER_SIZE
    requires !Covered(DatagramRequest(buffer), PayloadSize(buffer), size)
    ensures SameReceived(buffer, other, size) && DatagramRequest(other) != DatagramRequest(buffer)
  {
    hide DatagramRequest, RequestOf, Masked, PayloadSize, HeaderOf, Nibble, LE, PacketIn, BehindIn;
    var n := HEADER + PayloadSize(buffer);
    var at := if DatagramRequest(buffer).Write? then n - 1 else HEADER + 9;
    other := Changed(buffer, at);
    assert other[..size] == buffer[..size];
    SameHeader(buffer, other, size);
    DatagramParts(buffer);
    DatagramParts(other);
    var p, q := PacketIn(buffer), PacketIn(other);
    Kinds(p, BehindIn(buffer));
    Kinds(q, BehindIn(other));
    if DatagramRequest(buffer).Write? {
      assert p.payload[at - HEADER] != q.payload[at - HEADER];
    } else {
      TicketFields(p, BehindIn(buffer));
      TicketFields(q, BehindIn(other));
      var u, v := buffer[HEADER..][6..10], other[HEADER..][6..10];
      assert u[3] == buffer[at] && v[3] == other[at];
      if LE(u) == LE(v) {
        LEInjective(u, v);
      }
    }
  }

  // The request in a datagram depends on nothing but what was received, if and
  // only if the datagram is as long as a write's size field says, or has room
  // for the ticket of an announcement.
  lemma DatagramCoveredIff(buffer: seq<byte>, size: nat)
    requires |buffer| == BUFFER_SIZE && HEADER <= size <= BUFFER_SIZE
    ensures (forall other | SameReceived(buffer, other, size) :: DatagramRequest(other) == DatagramRequest(buffer))
       <==> Covered(DatagramRequest(buffer), PayloadSize(buffer), size)
  {
    hide DatagramRequest, PayloadSize;
    if Covered(DatagramRequest(buffer), PayloadSize(buffer), size) {
      forall other | SameReceived(buffer, other, size) ensures DatagramRequest(other) == DatagramRequest(buffer) {
        CoveredIsEnough(buffer, other, size);
      }
    } else {
      var other := UncoveredShows(buffer, size);
    }
  }
}
