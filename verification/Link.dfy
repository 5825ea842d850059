// From one end of a connection to the other: header helpers, send loop, a
// stream cut up by the network, framer.
module Link {
  import opened Bytes
  import opened Framing
  import opened FramingLimits
  import opened Headers
  import opened Sending

  function Wire(packets: seq<Packet>): seq<byte> {
    if packets == [] then [] else PacketBytes(packets[0]) + Wire(packets[1..])
  }

  function Frames(packets: seq<Packet>): (fs: seq<seq<byte>>)
    ensures |fs| == |packets| && forall i | 0 <= i < |fs| :: fs[i] == PacketBytes(packets[i])
  {
    if packets == [] then [] else [PacketBytes(packets[0])] + Frames(packets[1..])
  }

  lemma {:induction false} WireIsConcat(packets: seq<Packet>)
    ensures Wire(packets) == Concat(Frames(packets))
  {
    if packets == [] {
    } else {
      WireIsConcat(packets[1..]);
      assert Frames(packets)[1..] == Frames(packets[1..]);
    }
  }

  // Whatever 'S'-free garbage precedes them and however the network cuts the
  // stream into reads of at least a header, the packets that were sent arrive
  // exactly and in order.
  lemma EndToEnd(packets: seq<Packet>, garbage: seq<byte>, chunks: seq<seq<byte>>)
    requires forall i | 0 <= i < |packets| :: Sendable(packets[i])
    requires MAGIC !in garbage
    requires Concat(chunks) == garbage + Wire(packets)
    requires forall i | 0 <= i < |chunks| :: |chunks[i]| >= HEADER
    ensures var arrived := Session([], chunks);
      && |arrived.packets| == |packets|
      && (forall i | 0 <= i < |packets| ::
            && arrived.packets[i] == PacketBytes(packets[i]) && |arrived.packets[i]| >= HEADER
            && PacketOf(arrived.packets[i]) == packets[i])
      && (packets != [] ==> arrived.rest == [])
  {
    ChunkingIndependence(chunks, chunks);
    forall i | 0 <= i < |packets|
      ensures Framed(PacketBytes(packets[i])) && PacketOf(PacketBytes(packets[i])) == packets[i]
    {
      SendableIsFramed(packets[i]);
      PacketRoundTrip(packets[i]);
    }
    WireIsConcat(packets);
    FramedRoundTrip(Frames(packets));
    if packets == [] {
      assert garbage + Wire(packets) == garbage;
      NoMagicIsSilent(garbage);
    } else {
      GarbageIsSkipped(garbage, Wire(packets));
    }
  }

  // When the sender broke off, what the receiver has dispatched by any moment
  // is a prefix of what was sent: no packet torn, doubled or invented.
  lemma BrokenConnection(packets: seq<Packet>, chunks: seq<seq<byte>>)
    requires forall i | 0 <= i < |packets| :: Sendable(packets[i])
    requires Concat(chunks) <= Wire(packets)
    requires forall i | 0 <= i < |chunks| :: |chunks[i]| >= HEADER
    ensures var arrived := Session([], chunks).packets;
      && |arrived| <= |packets|
      && forall i | 0 <= i < |arrived| :: |arrived[i]| >= HEADER && PacketOf(arrived[i]) == packets[i]
  {
    ChunkingIndependence(chunks, chunks);
    forall i | 0 <= i < |packets|
      ensures Framed(PacketBytes(packets[i])) && PacketOf(PacketBytes(packets[i])) == packets[i]
    {
      SendableIsFramed(packets[i]);
      PacketRoundTrip(packets[i]);
    }
    WireIsConcat(packets);
    PrefixSoFar(Frames(packets), |Concat(chunks)|);
    assert Wire(packets)[..|Concat(chunks)|] == Concat(chunks);
    var arrived := Session([], chunks).packets;
    forall i | 0 <= i < |arrived| ensures |arrived[i]| >= HEADER && PacketOf(arrived[i]) == packets[i] {
      assert arrived[i] == Frames(packets)[i];
    }
  }

  // The sending half: packets go out one by one until the socket fails or
  // stops answering, so the wire carries all of them or a prefix.
  method Transmit(socket: Socket, packets: seq<Packet>) returns (outcome: Outcome)
    requires forall i | 0 <= i < |socket.answers| :: socket.answers[i] >= -1
    modifies socket
    ensures outcome == Done ==> socket.wire == old(socket.wire) + Wire(packets)
    ensures old(socket.wire) <= socket.wire <= old(socket.wire) + Wire(packets)
  {
    hide PacketBytes, Accepted;
    var i := 0;
    while i < |packets|
      invariant 0 <= i <= |packets|
      invariant forall i | 0 <= i < |socket.answers| :: socket.answers[i] >= -1
      invariant old(socket.wire) <= socket.wire
      invariant socket.wire + Wire(packets[i..]) == old(socket.wire) + Wire(packets)
    {
      assert Wire(packets[i..]) == PacketBytes(packets[i]) + Wire(packets[i + 1..]) by {
        assert packets[i..][1..] == packets[i + 1..];
      }
      outcome := BlockingSend(socket, PacketBytes(packets[i]));
      if outcome != Done {
        return;
      }
      i := i + 1;
    }
    outcome := Done;
  }
}
