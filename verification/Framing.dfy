// The incremental packet framer shared by the server's per-client receive
// handler and the client's receive loop.
//
// A packet on the stream is a 60-byte packed header, whose first byte is 'S'
// and whose last byte is 'D', followed by as many payload bytes as the low
// nine bits of the header's 16-bit size field say.
module Framing {
  import opened Bytes

  const HEADER: nat := 60
  const MAX_PAYLOAD: nat := 0x1ff
  const BUFFER_SIZE: nat := 32 * 1024
  const MAX_RESIDUE: nat := HEADER + MAX_PAYLOAD - 1
  const MAGIC: byte := 0x53
  const MAGIC_DATA: byte := 0x44

  predicate HasMagic(s: seq<byte>)
    requires |s| >= HEADER
  {
    s[0] == MAGIC && s[59] == MAGIC_DATA
  }

  // The payload length announced by a header: the size field at bytes 57 and
  // 58 under the mask 0x1ff.
  function PayloadSize(s: seq<byte>): (n: nat)
    requires |s| >= HEADER
    ensures n <= MAX_PAYLOAD
  {
    s[57] as int + 256 * (s[58] as int % 2)
  }

  // The framer writes the masked size back into the buffer it scans.
  function Masked(s: seq<byte>): seq<byte>
    requires |s| >= HEADER
  {
    s[58 := s[58] % 2]
  }

  // Masking is the size field modulo 512, and nothing else changes.
  lemma MaskedField(s: seq<byte>)
    requires |s| >= HEADER
    ensures LE(Masked(s)[57..59]) == LE(s[57..59]) % (MAX_PAYLOAD + 1) == PayloadSize(s)
    ensures forall i | 0 <= i < |s| && i != 57 && i != 58 :: Masked(s)[i] == s[i]
  {
    var m := Masked(s);
    assert s[57..59] == [s[57], s[58]] && m[57..59] == [m[57], m[58]];
    TwoBytes(s[57], s[58]);
    TwoBytes(m[57], m[58]);
    hide LE;
  }

  lemma TwoBytes(low: byte, high: byte)
    ensures LE([low, high]) == low as int + 256 * high as int
  {
    assert [low, high][1..] == [high];
    assert LE([high]) == high;
  }

  datatype Parsed = Parsed(packets: seq<seq<byte>>, rest: seq<byte>) {
    // The same result with packets dispatched before it.
    function After(earlier: seq<seq<byte>>): Parsed {
      Parsed(earlier + packets, rest)
    }
  }

  // What the bytes at the head of the scan are.
  datatype Head = Starved | Noise | Waiting(rest: seq<byte>) | Whole(packet: seq<byte>, next: seq<byte>)

  function Look(s: seq<byte>): (h: Head)
    ensures h.Whole? ==> HEADER <= |h.packet| <= HEADER + MAX_PAYLOAD && |h.packet| + |h.next| == |s|
  {
    if |s| < HEADER then Starved
    else if !HasMagic(s) then Noise
    else
      var n := HEADER + PayloadSize(s);
      if |s| < n then Waiting(Masked(s)) else Whole(Masked(s[..n]), s[n..])
  }

  // One pure pass over a whole stream: the packets found, and the bytes left
  // waiting for more.
  function Parse(s: seq<byte>): Parsed
    decreases |s|
  {
    match Look(s)
    case Starved => Parsed([], s)
    case Noise => Parse(s[1..])
    case Waiting(rest) => Parsed([], rest)
    case Whole(packet, next) => Parse(next).After([packet])
  }

  // What is left over is bounded, and parsing it again yields nothing new.
  lemma {:induction false} RestIsQuiescent(s: seq<byte>)
    ensures |Parse(s).rest| <= MAX_RESIDUE
    ensures Parse(Parse(s).rest) == Parsed([], Parse(s).rest)
    decreases |s|
  {
    match Look(s) {
      case Starved =>
      case Noise => RestIsQuiescent(s[1..]);
      case Waiting(rest) => assert Look(rest) == Waiting(rest) by { assert Masked(rest) == rest; }
      case Whole(packet, next) => RestIsQuiescent(next);
    }
  }

  // The masked size byte in a waiting residue does not change how it is read.
  lemma MaskInvisible(s: seq<byte>)
    requires |s| >= HEADER && HasMagic(s)
    ensures Look(Masked(s)) == Look(s)
  {
    var m := Masked(s);
    var n := HEADER + PayloadSize(s);
    assert Masked(m) == m;
    if |s| >= n {
      assert m[n..] == s[n..];
      assert Masked(m[..n]) == Masked(s[..n]);
    }
  }

  // How the head of a scan reads once more bytes have arrived.
  lemma LookAhead(s: seq<byte>, t: seq<byte>)
    requires |s| >= HEADER
    ensures match Look(s)
            case Starved => false
            case Noise => Look(s + t) == Noise
            case Waiting(rest) => Look(s + t) == Look(rest + t)
            case Whole(packet, next) => Look(s + t) == Whole(packet, next + t)
  {
    var n := HEADER + PayloadSize(s);
    if HasMagic(s) {
      if |s| < n {
        MaskInvisible(s + t);
        assert Masked(s) + t == Masked(s + t);
      } else {
        assert (s + t)[..n] == s[..n] && (s + t)[n..] == s[n..] + t;
      }
    }
  }

  lemma SameLook(s: seq<byte>, t: seq<byte>)
    requires Look(s) == Look(t) && !Look(s).Starved? && !Look(s).Noise?
    ensures Parse(s) == Parse(t)
  {
  }

  lemma AfterAfter(p: Parsed, early: seq<seq<byte>>, late: seq<seq<byte>>)
    ensures p.After(late).After(early) == p.After(early + late)
  {
    assert early + (late + p.packets) == early + late + p.packets;
  }

  // Parsing can be interrupted anywhere: the residue stands for all that was
  // read before.
  lemma {:induction false} ParseSplit(s: seq<byte>, t: seq<byte>)
    ensures Parse(s + t) == Parse(Parse(s).rest + t).After(Parse(s).packets)
    decreases |s|
  {
    if |s| < HEADER {
    } else {
      LookAhead(s, t);
    }
    match Look(s) {
      case Starved =>
      case Noise =>
        ParseSplit(s[1..], t);
        assert (s + t)[1..] == s[1..] + t;
      case Waiting(rest) =>
        SameLook(s + t, rest + t);
      case Whole(packet, next) =>
        ParseSplit(next, t);
        AfterAfter(Parse(Parse(next).rest + t), [packet], Parse(next).packets);
    }
  }

  // A read shorter than a header is thrown away by both receive loops, so
  // this is the part of a chunked stream that is ever looked at.
  function Retained(chunks: seq<seq<byte>>): seq<byte> {
    if chunks == [] then []
    else (if |chunks[0]| < HEADER then [] else chunks[0]) + Retained(chunks[1..])
  }

  function Concat(chunks: seq<seq<byte>>): seq<byte> {
    if chunks == [] then [] else chunks[0] + Concat(chunks[1..])
  }

  // One call of the receive handler on a residue and one read.
  function Receive(rest: seq<byte>, chunk: seq<byte>): Parsed {
    if |chunk| < HEADER then Parsed([], rest) else Parse(rest + chunk)
  }

  // A whole connection: one handler call after another.
  function Session(rest: seq<byte>, chunks: seq<seq<byte>>): Parsed
    decreases |chunks|
  {
    if chunks == [] then Parsed([], rest)
    else
      var p := Receive(rest, chunks[0]);
      var q := Session(p.rest, chunks[1..]);
      q.After(p.packets)
  }

  // Every read fits into the room that the residue leaves in the buffer.
  predicate Fits(rest: seq<byte>, chunks: seq<seq<byte>>)
    decreases |chunks|
  {
    chunks == []
    || (|rest| + |chunks[0]| <= BUFFER_SIZE && Fits(Receive(rest, chunks[0]).rest, chunks[1..]))
  }

  lemma SessionNext(rest: seq<byte>, chunks: seq<seq<byte>>, i: nat, packets: seq<seq<byte>>)
    requires i < |chunks| && Fits(rest, chunks[i..])
    ensures var p := Receive(rest, chunks[i]);
      && |rest| + |chunks[i]| <= BUFFER_SIZE && Fits(p.rest, chunks[i + 1..])
      && Session(rest, chunks[i..]).After(packets) == Session(p.rest, chunks[i + 1..]).After(packets + p.packets)
  {
    assert chunks[i..][0] == chunks[i] && chunks[i..][1..] == chunks[i + 1..];
    var p := Receive(rest, chunks[i]);
    AfterAfter(Session(p.rest, chunks[i + 1..]), packets, p.packets);
  }

  lemma SessionOver(rest: seq<byte>, none: seq<seq<byte>>, packets: seq<seq<byte>>)
    requires none == []
    ensures Session(rest, none).After(packets) == Parsed(packets, rest)
  {
  }

  // For every stream and every way it is cut into reads, the incremental
  // framer is one pure parse of the bytes that were kept.
  lemma {:induction false} SessionIsOneParse(rest: seq<byte>, chunks: seq<seq<byte>>)
    requires Parse(rest) == Parsed([], rest)
    ensures Session(rest, chunks) == Parse(rest + Retained(chunks))
    decreases |chunks|
  {
    if chunks == [] {
      assert rest + Retained(chunks) == rest;
    } else if |chunks[0]| < HEADER {
      SessionIsOneParse(rest, chunks[1..]);
      assert Retained(chunks) == Retained(chunks[1..]);
    } else {
      var p := Parse(rest + chunks[0]);
      RestIsQuiescent(rest + chunks[0]);
      SessionIsOneParse(p.rest, chunks[1..]);
      ParseSplit(rest + chunks[0], Retained(chunks[1..]));
      assert rest + Retained(chunks) == rest + chunks[0] + Retained(chunks[1..]);
    }
  }

  // Every byte of the stream is kept exactly when no read is short but not
  // empty.
  lemma {:induction false} NothingDroppedIffNoShortRead(chunks: seq<seq<byte>>)
    ensures |Retained(chunks)| <= |Concat(chunks)|
    ensures |Retained(chunks)| == |Concat(chunks)|
       <==> forall i | 0 <= i < |chunks| :: chunks[i] == [] || |chunks[i]| >= HEADER
    ensures |Retained(chunks)| == |Concat(chunks)| ==> Retained(chunks) == Concat(chunks)
  {
    if chunks == [] {
    } else {
      NothingDroppedIffNoShortRead(chunks[1..]);
      assert forall i | 1 <= i < |chunks| :: chunks[i] == chunks[1..][i - 1];
    }
  }

  // Chunking independence: two ways of cutting one stream into reads of at
  // least a header each dispatch the same packets and wait with the same
  // residue.
  lemma ChunkingIndependence(chunks: seq<seq<byte>>, other: seq<seq<byte>>)
    requires Concat(chunks) == Concat(other)
    requires forall i | 0 <= i < |chunks| :: |chunks[i]| >= HEADER
    requires forall i | 0 <= i < |other| :: |other[i]| >= HEADER
    ensures Session([], chunks) == Session([], other) == Parse(Concat(chunks))
  {
    SessionIsOneParse([], chunks);
    SessionIsOneParse([], other);
    NothingDroppedIffNoShortRead(chunks);
    NothingDroppedIffNoShortRead(other);
    assert [] + Concat(chunks) == Concat(chunks);
  }

  // A slot that is given to a new connection keeps the residue of the old one
  // (syncs_add_client does not clear it), and then the new stream is read as
  // its continuation. Behind a residue that waits for a payload, a whole
  // packet is lost.
  lemma StaleResidueBreaksAConnection(packet: seq<byte>)
    requires |packet| == HEADER && HasMagic(packet) && PayloadSize(packet) == 0
    ensures Session([], [packet]).packets == [Masked(packet)]
    ensures exists r: seq<byte> :: Parse(r) == Parsed([], r) && Session(r, [packet]).packets == []
  {
    assert [] + packet == packet && packet[..HEADER] == packet && packet[HEADER..] == [];
    var p := Receive([], packet);
    assert p == Parsed([Masked(packet)] + Parse([]).packets, []);
    assert Session(p.rest, [packet][1..]) == Parsed([], []);
    // A residue that waits for the payload of a 511-byte packet.
    var r: seq<byte> := seq(HEADER, i => if i == 0 then MAGIC else if i == 59 then MAGIC_DATA
                                         else if i == 57 then 255 else if i == 58 then 1 else 0);
    assert PayloadSize(r) == MAX_PAYLOAD && Masked(r) == r;
    assert Parse(r) == Parsed([], r);
    var s := r + packet;
    assert |s| == 120 && HasMagic(s) && PayloadSize(s) == MAX_PAYLOAD;
    assert Parse(s).packets == [];
    assert Session(r, [packet]).packets == Parse(s).packets + Session(Parse(s).rest, [packet][1..]).packets;
    assert [packet][1..] == [];
  }

  // Packets that are ready to be put on the wire.
  predicate Framed(packet: seq<byte>) {
    && |packet| >= HEADER
    && HasMagic(packet)
    && packet[58] < 2
    && |packet| == HEADER + PayloadSize(packet)
  }

  // Whatever the stream holds, what is dispatched is framed: masked, whole,
  // and of the length that its header announces.
  lemma {:induction false} DispatchedIsFramed(s: seq<byte>)
    ensures forall i | 0 <= i < |Parse(s).packets| :: Framed(Parse(s).packets[i])
    decreases |s|
  {
    match Look(s) {
      case Starved =>
      case Noise => DispatchedIsFramed(s[1..]);
      case Waiting(rest) =>
      case Whole(packet, next) =>
        DispatchedIsFramed(next);
        var n := HEADER + PayloadSize(s);
        assert packet == Masked(s[..n]) && Framed(packet);
    }
  }

  lemma FramedPacketFirst(packet: seq<byte>, t: seq<byte>)
    requires Framed(packet)
    ensures Parse(packet + t) == Parse(t).After([packet])
  {
    var s := packet + t;
    assert s[..|packet|] == packet && s[|packet|..] == t;
    assert Masked(packet) == packet;
    assert Look(s) == Whole(packet, t);
  }

  // Round trip: what was framed is recovered exactly and in order, with
  // nothing left over.
  lemma {:induction false} FramedRoundTrip(packets: seq<seq<byte>>)
    requires forall i | 0 <= i < |packets| :: Framed(packets[i])
    ensures Parse(Concat(packets)) == Parsed(packets, [])
  {
    if packets == [] {
    } else {
      FramedRoundTrip(packets[1..]);
      FramedPacketFirst(packets[0], Concat(packets[1..]));
      assert packets == [packets[0]] + packets[1..];
    }
  }

  // Resynchronisation: garbage that holds no 'S' is skipped.
  lemma {:induction false} GarbageIsSkipped(garbage: seq<byte>, t: seq<byte>)
    requires MAGIC !in garbage
    requires |t| >= HEADER
    ensures Parse(garbage + t) == Parse(t)
    decreases |garbage|
  {
    if garbage == [] {
      assert garbage + t == t;
    } else {
      var s := garbage + t;
      assert s[0] == garbage[0] && garbage[0] in garbage;
      GarbageIsSkipped(garbage[1..], t);
      assert s[1..] == garbage[1..] + t;
    }
  }

  // A receiver that has seen only part of the stream has dispatched a prefix
  // of the packets that were sent, none of them torn or invented.
  lemma PrefixSoFar(packets: seq<seq<byte>>, k: nat)
    requires forall i | 0 <= i < |packets| :: Framed(packets[i])
    requires k <= |Concat(packets)|
    ensures Parse(Concat(packets)[..k]).packets <= packets
  {
    hide Parse, Framed, Concat;
    var wire := Concat(packets);
    FramedRoundTrip(packets);
    ParseSplit(wire[..k], wire[k..]);
    assert wire == wire[..k] + wire[k..];
  }

  // What each turn of the scanning loop does to the parse of what is left.
  lemma SkipNoise(s: seq<byte>)
    requires |s| >= HEADER && !HasMagic(s)
    ensures Parse(s) == Parse(s[1..])
  {
  }

  lemma MagicIs(s: seq<byte>)
    requires |s| >= HEADER
    ensures HasMagic(s) <==> s[0] == MAGIC && s[59] == MAGIC_DATA
  {
  }

  lemma MaskIsUpdate(s: seq<byte>)
    requires |s| >= HEADER
    ensures Masked(s) == s[58 := s[58] % 2]
    ensures PayloadSize(s) == Masked(s)[57] as int + 256 * Masked(s)[58] as int
  {
  }

  lemma StopStarved(s: seq<byte>)
    requires |s| < HEADER
    ensures Parse(s) == Parsed([], s)
  {
  }

  lemma StopWaiting(s: seq<byte>)
    requires |s| >= HEADER && HasMagic(s) && |s| < HEADER + PayloadSize(s)
    ensures Parse(s) == Parsed([], Masked(s))
  {
  }

  lemma TakeWhole(s: seq<byte>)
    requires |s| >= HEADER && HasMagic(s) && |s| >= HEADER + PayloadSize(s)
    ensures Parse(s) == Parse(s[HEADER + PayloadSize(s)..]).After([Masked(s)[..HEADER + PayloadSize(s)]])
  {
    var n := HEADER + PayloadSize(s);
    assert Masked(s)[..n] == Masked(s[..n]);
  }

  // A turn that dispatches a packet, seen from the whole of what is scanned.
  lemma TurnTakes(all: seq<byte>, head: nat, n: nat, packets: seq<seq<byte>>)
    requires head + HEADER <= |all| && HasMagic(all[head..])
    requires n == HEADER + PayloadSize(all[head..]) <= |all| - head
    ensures Masked(all[head..])[n..] == all[head + n..]
    ensures Parse(all[head..]).After(packets) == Parse(all[head + n..]).After(packets + [Masked(all[head..])[..n]])
  {
    var rest := all[head..];
    TakeWhole(rest);
    assert Masked(rest)[n..] == rest[n..] == all[head + n..];
    AfterAfter(Parse(all[head + n..]), packets, [Masked(rest)[..n]]);
  }

  lemma Slices(a: array<byte>, from: nat, to: nat, n: nat)
    requires from + n <= to <= a.Length
    ensures a[from..to][..n] == a[from..from + n] && a[from..to][n..] == a[from + n..to]
  {
  }

  // The receive buffer of one connection.
  class StreamBuffer {
    const buffer: array<byte>
    var received: nat

    ghost predicate Valid()
      reads this, buffer
    {
      buffer.Length == BUFFER_SIZE && received <= MAX_RESIDUE
    }

    ghost function Residue(): seq<byte>
      reads this, buffer
      requires Valid()
    {
      buffer[..received]
    }

    constructor ()
      ensures Valid() && fresh(buffer)
      ensures Residue() == []
    {
      buffer := new byte[BUFFER_SIZE];
      received := 0;
    }

    // The size field of the header at `head`, masked in place.
    method MaskSize(head: nat, recv: nat) returns (size: nat)
      requires head + HEADER <= recv <= buffer.Length
      modifies buffer
      ensures size == PayloadSize(old(buffer[head..recv]))
      ensures buffer[head..recv] == Masked(old(buffer[head..recv]))
      ensures forall k | 0 <= k < buffer.Length && !(head <= k < recv) :: buffer[k] == old(buffer[k])
    {
      ghost var rest := buffer[head..recv];
      assert rest[57] == buffer[head + 57] && rest[58] == buffer[head + 58];
      MaskIsUpdate(rest);
      buffer[head + 58] := buffer[head + 58] % 2;
      size := buffer[head + 57] as int + 256 * buffer[head + 58] as int;
    }

    // The scan over the first `recv` bytes: skip what is no header, mask the
    // size in place, dispatch whole packets, stop at an incomplete one.
    method Scan(recv: nat) returns (packets: seq<seq<byte>>, head: nat)
      requires recv <= buffer.Length
      modifies buffer
      ensures head <= recv
      ensures Parse(old(buffer[..recv])) == Parsed(packets, buffer[head..recv])
    {
      hide Parse, Look, Masked, PayloadSize, HasMagic;
      ghost var all := buffer[..recv];
      packets, head := [], 0;
      assert Parse(all).After([]) == Parse(all) by { assert [] + Parse(all).packets == Parse(all).packets; }
      assert all[0..] == all;
      while recv - head >= HEADER
        invariant 0 <= head <= recv
        invariant buffer[head..recv] == all[head..]
        invariant Parse(all) == Parse(all[head..]).After(packets)
        decreases recv - head
      {
        ghost var rest := all[head..];
        assert rest[0] == buffer[head] && rest[59] == buffer[head + 59];
        MagicIs(rest);
        if buffer[head] != MAGIC {
          SkipNoise(rest);
          head := head + 1;
          continue;
        }
        if buffer[head + 59] != MAGIC_DATA {
          SkipNoise(rest);
          head := head + 1;
          continue;
        }
        var size := MaskSize(head, recv);
        if recv - head < HEADER + size {
          StopWaiting(rest);
          return;
        }
        Slices(buffer, head, recv, HEADER + size);
        TurnTakes(all, head, HEADER + size, packets);
        packets := packets + [buffer[head..head + HEADER + size]];
        head := head + HEADER + size;
      }
      StopStarved(all[head..]);
    }

    // One readable event: `chunk` is what recv put behind the residue. What
    // the scan leaves is moved to the front of the buffer, and there is room
    // for the next read whatever happens.
    method Handle(chunk: seq<byte>) returns (packets: seq<seq<byte>>)
      requires Valid()
      requires |chunk| <= BUFFER_SIZE - received
      modifies this, buffer
      ensures Valid() && buffer.Length - received > 0
      ensures Parsed(packets, Residue()) == Receive(old(Residue()), chunk)
    {
      ghost var all := buffer[..received] + chunk;
      forall k | 0 <= k < |chunk| {
        buffer[received + k] := chunk[k];
      }
      packets := [];
      if |chunk| < HEADER {
        assert buffer[..received] == old(buffer[..received]);
        return;
      }
      var recv := received + |chunk|;
      assert buffer[..recv] == all;
      var head;
      packets, head := Scan(recv);
      RestIsQuiescent(all);
      ghost var left := buffer[head..recv];
      if head < recv {
        if head > 0 {
          forall k | 0 <= k < recv - head {
            buffer[k] := buffer[head + k];
          }
        }
        received := recv - head;
      } else {
        received := 0;
      }
      assert buffer[..received] == left;
    }

    // The client's receive loop: read after read until the stream ends. A
    // read brings no more than there is room for.
    method ReceiveAll(chunks: seq<seq<byte>>) returns (packets: seq<seq<byte>>)
      requires Valid() && Residue() == []
      requires Fits([], chunks)
      modifies this, buffer
      ensures Valid()
      ensures Parsed(packets, Residue()) == Parse(Retained(chunks))
    {
      hide Parse, Session, Fits, Receive;
      packets := [];
      var i := 0;
      assert chunks[i..] == chunks;
      assert [] + Session([], chunks).packets == Session([], chunks).packets;
      while i < |chunks|
        invariant 0 <= i <= |chunks|
        invariant Valid() && Fits(Residue(), chunks[i..])
        invariant Session([], chunks) == Session(Residue(), chunks[i..]).After(packets)
      {
        SessionNext(Residue(), chunks, i, packets);
        var more := Handle(chunks[i]);
        packets := packets + more;
        i := i + 1;
      }
      SessionOver(Residue(), chunks[i..], packets);
      StopStarved([]);
      SessionIsOneParse([], chunks);
      assert [] + Retained(chunks) == Retained(chunks);
    }
  }
}
