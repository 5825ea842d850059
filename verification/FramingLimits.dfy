// Where the framer's two habits do harm: throwing short reads away, and
// keeping a residue for the next user of a slot. Both have an exact condition.
module FramingLimits {
  import opened Bytes
  import opened Framing

  // Nothing dispatched, and nothing kept that could begin a packet.
  predicate Silent(p: Parsed) {
    p.packets == [] && MAGIC !in p.rest
  }

  lemma {:induction false} NoMagicIsSilent(s: seq<byte>)
    requires MAGIC !in s
    ensures Silent(Parse(s))
    decreases |s|
  {
    if |s| < HEADER {
      assert Parse(s) == Parsed([], s);
    } else {
      assert s[0] in s;
      NoMagicIsSilent(s[1..]);
    }
  }

  // An 'S' with a 'D' in its place, or too close to the end to tell, is not
  // passed over, whatever 'S'-free bytes come before it.
  lemma {:induction false} MagicIsNoticed(garbage: seq<byte>, s: seq<byte>)
    requires MAGIC !in garbage && s != [] && s[0] == MAGIC
    requires |s| >= HEADER ==> s[59] == MAGIC_DATA
    ensures !Silent(Parse(garbage + s))
    decreases |garbage|
  {
    var w := garbage + s;
    if |w| < HEADER {
      assert w[|garbage|] == MAGIC;
    } else if garbage == [] {
      assert w == s && HasMagic(w);
      assert Masked(w)[0] == MAGIC;
    } else {
      assert w[0] == garbage[0] && garbage[0] in garbage;
      assert w[1..] == garbage[1..] + s;
      MagicIsNoticed(garbage[1..], s);
    }
  }

  // ---------------------------------------------------------- stale residues

  // A residue without 'S' is only garbage before the new stream.
  lemma {:induction false} NoMagicIsHarmless(r: seq<byte>, t: seq<byte>)
    requires MAGIC !in r
    ensures Parse(r + t).packets == Parse(t).packets
    decreases |r|
  {
    var w := r + t;
    if r == [] {
      assert w == t;
    } else if |w| < HEADER {
      assert Parse(w).packets == [] && Parse(t).packets == [];
    } else {
      assert w[0] == r[0] && r[0] in r;
      assert w[1..] == r[1..] + t;
      NoMagicIsHarmless(r[1..], t);
    }
  }

  function FirstMagic(r: seq<byte>): (k: nat)
    requires MAGIC in r
    ensures k < |r| && r[k] == MAGIC && MAGIC !in r[..k]
  {
    if r[0] == MAGIC then 0
    else
      var k := 1 + FirstMagic(r[1..]);
      assert r[..k] == [r[0]] + r[1..][..k - 1];
      k
  }

  // A stream that holds no packet, but makes one out of `kept` bytes that
  // begin with 'S'.
  function Continuation(kept: nat): (t: seq<byte>)
    ensures |t| == HEADER + MAX_PAYLOAD && MAGIC !in t
  {
    seq(HEADER + MAX_PAYLOAD, i => if i + kept == 59 then MAGIC_DATA else 0)
  }

  lemma ContinuedIntoAPacket(r: seq<byte>)
    requires Parse(r) == Parsed([], r) && MAGIC in r
    ensures var t := Continuation(|r| - FirstMagic(r));
      Parse(r + t).packets != [] && Parse(t).packets == []
  {
    var k := FirstMagic(r);
    var s, t := r[k..], Continuation(|r| - k);
    NoMagicIsSilent(t);
    if |r| >= HEADER {
      QuiescentWaits(r);
      assert k == 0;
    }
    var w := s + t;
    assert w[0] == MAGIC && w[59] == MAGIC_DATA;
    assert Look(w).Whole?;
    assert Parse(w).packets != [];
    assert r + t == r[..k] + w;
    NoMagicIsHarmless(r[..k], w);
  }

  lemma QuiescentWaits(r: seq<byte>)
    requires Parse(r) == Parsed([], r) && |r| >= HEADER
    ensures HasMagic(r)
  {
    if !HasMagic(r) {
      RestIsShorter(r[1..]);
    }
  }

  lemma {:induction false} RestIsShorter(s: seq<byte>)
    ensures |Parse(s).rest| <= |s|
    decreases |s|
  {
    match Look(s) {
      case Starved =>
      case Noise => RestIsShorter(s[1..]);
      case Waiting(rest) =>
      case Whole(packet, next) => RestIsShorter(next);
    }
  }

  lemma OneChunk(t: seq<byte>)
    ensures Concat([t]) == t && Retained([t]) == if |t| < HEADER then [] else t
  {
    var none: seq<seq<byte>> := [t][1..];
    assert none == [] && t + [] == t;
  }

  // A slot's residue is harmless to its next user, for every stream and every
  // way it is cut into reads, exactly when it holds no 'S'.
  lemma StaleResidueHarmlessIff(r: seq<byte>)
    requires Parse(r) == Parsed([], r)
    ensures (forall t :: Parse(r + t).packets == Parse(t).packets) <==> MAGIC !in r
    ensures (forall chunks :: Session(r, chunks).packets == Session([], chunks).packets) <==> MAGIC !in r
  {
    StopStarved([]);
    if MAGIC in r {
      var t := Continuation(|r| - FirstMagic(r));
      ContinuedIntoAPacket(r);
      SessionIsOneParse(r, [t]);
      SessionIsOneParse([], [t]);
      OneChunk(t);
      assert [] + t == t;
      assert Session(r, [t]).packets != Session([], [t]).packets;
    } else {
      hide Parse, Session, Retained;
      forall t ensures Parse(r + t).packets == Parse(t).packets {
        NoMagicIsHarmless(r, t);
      }
      forall chunks ensures Session(r, chunks).packets == Session([], chunks).packets {
        SessionIsOneParse(r, chunks);
        FreshSession(chunks);
      }
    }
  }

  // ------------------------------------------------------------- short reads

  predicate OfLengths(chunks: seq<seq<byte>>, lens: seq<nat>) {
    |chunks| == |lens| && forall i | 0 <= i < |lens| :: |chunks[i]| == lens[i]
  }

  predicate Harmless(lens: seq<nat>) {
    forall i | 0 <= i < |lens| :: lens[i] == 0 || lens[i] >= HEADER
  }

  // Zeros cut into reads, with a 'D' at one place if it is there.
  function Zeros(lens: seq<nat>, at: int): (chunks: seq<seq<byte>>)
    ensures OfLengths(chunks, lens)
  {
    if lens == [] then []
    else
      var first := seq(lens[0], i requires 0 <= i < lens[0] => if i == at then MAGIC_DATA else 0);
      [first] + Zeros(lens[1..], at - lens[0])
  }

  // Zeros, but an 'S' at the front of read k and a 'D' 59 bytes later.
  function Witness(lens: seq<nat>, k: nat): (chunks: seq<seq<byte>>)
    requires k < |lens| && lens[k] > 0
    ensures OfLengths(chunks, lens)
  {
    if k == 0 then
      [[MAGIC] + seq(lens[0] - 1, i => if i == 58 then MAGIC_DATA else 0)] + Zeros(lens[1..], 59 - lens[0] as int)
    else [seq(lens[0], _ => 0)] + Witness(lens[1..], k - 1)
  }

  lemma {:induction false} ZerosHoldNoMagic(lens: seq<nat>, at: int)
    ensures MAGIC !in Concat(Zeros(lens, at)) && MAGIC !in Retained(Zeros(lens, at))
    ensures 0 <= at < |Concat(Zeros(lens, at))| ==> Concat(Zeros(lens, at))[at] == MAGIC_DATA
  {
    var chunks := Zeros(lens, at);
    if lens == [] {
      assert chunks == [];
    } else {
      ZerosHoldNoMagic(lens[1..], at - lens[0]);
      assert chunks[1..] == Zeros(lens[1..], at - lens[0]);
      assert MAGIC !in chunks[0];
    }
  }

  lemma FirstChunk(first: seq<byte>, rest: seq<seq<byte>>)
    ensures Concat([first] + rest) == first + Concat(rest)
    ensures Retained([first] + rest) == (if |first| < HEADER then [] else first) + Retained(rest)
  {
    assert ([first] + rest)[1..] == rest;
  }

  // The witness's 'S' is in the stream, but not in what is kept of it.
  lemma {:induction false} WitnessShape(lens: seq<nat>, k: nat) returns (garbage: seq<byte>, s: seq<byte>)
    requires k < |lens| && 0 < lens[k] < HEADER
    ensures Concat(Witness(lens, k)) == garbage + s && MAGIC !in garbage
    ensures s != [] && s[0] == MAGIC && (|s| >= HEADER ==> s[59] == MAGIC_DATA)
    ensures MAGIC !in Retained(Witness(lens, k))
    decreases k
  {
    hide Concat, Retained;
    if k == 0 {
      var first := [MAGIC] + seq(lens[0] - 1, i => if i == 58 then MAGIC_DATA else 0);
      var tail := Zeros(lens[1..], 59 - lens[0] as int);
      ZerosHoldNoMagic(lens[1..], 59 - lens[0] as int);
      FirstChunk(first, tail);
      garbage, s := [], first + Concat(tail);
    } else {
      garbage, s := WitnessShape(lens[1..], k - 1);
      var first: seq<byte> := seq(lens[0], _ => 0);
      FirstChunk(first, Witness(lens[1..], k - 1));
      assert MAGIC !in first;
      assert first + (garbage + s) == first + garbage + s;
      garbage := first + garbage;
    }
  }

  // A connection whose reads have given lengths is parsed as one stream, for
  // every content, exactly when no read is short but not empty.
  lemma ParsedWholeIffNoShortRead(lens: seq<nat>)
    ensures (forall chunks | OfLengths(chunks, lens) :: Session([], chunks) == Parse(Concat(chunks)))
        <==> Harmless(lens)
  {
    hide Parse, Session, Concat, Retained, Witness, HasMagic;
    if Harmless(lens) {
      forall chunks | OfLengths(chunks, lens) ensures Session([], chunks) == Parse(Concat(chunks)) {
        NothingDroppedIffNoShortRead(chunks);
        FreshSession(chunks);
      }
    } else {
      var k :| 0 <= k < |lens| && 0 < lens[k] < HEADER;
      LossyWitness(lens, k);
      assert OfLengths(Witness(lens, k), lens);
    }
  }

  lemma FreshSession(chunks: seq<seq<byte>>)
    ensures Session([], chunks) == Parse(Retained(chunks))
  {
    StopStarved([]);
    SessionIsOneParse([], chunks);
    assert [] + Retained(chunks) == Retained(chunks);
  }

  lemma LossyWitness(lens: seq<nat>, k: nat)
    requires k < |lens| && 0 < lens[k] < HEADER
    ensures Session([], Witness(lens, k)) != Parse(Concat(Witness(lens, k)))
  {
    hide Parse, Session, Concat, Retained, Witness, HasMagic;
    var garbage, s := WitnessShape(lens, k);
    MagicIsNoticed(garbage, s);
    NoMagicIsSilent(Retained(Witness(lens, k)));
    FreshSession(Witness(lens, k));
  }

  // A stream that loses a packet: any packet without payload that arrives in
  // two reads.
  lemma SplitHeaderIsLost(packet: seq<byte>, k: nat)
    requires Framed(packet) && |packet| == HEADER && 0 < k < HEADER
    ensures Parse(Concat([packet[..k], packet[k..]])).packets == [packet]
    ensures Session([], [packet[..k], packet[k..]]) == Parsed([], [])
  {
    var chunks := [packet[..k], packet[k..]];
    assert chunks[1..] == [packet[k..]];
    OneChunk(packet[k..]);
    assert packet[..k] + packet[k..] == packet;
    assert Concat(chunks) == packet;
    assert packet + [] == packet;
    FramedPacketFirst(packet, []);
    StopStarved([]);
    assert [packet] + [] == [packet];
    SessionIsOneParse([], chunks);
    assert Retained(chunks) == [];
  }
}
