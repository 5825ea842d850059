// Bytes, and the little-endian integers that the packed structures are made of.
module Bytes {

  type byte = b: int | 0 <= b < 256

  datatype Option<+T> = None | Some(value: T)

  // The number a run of bytes stands for, least significant byte first.
  function LE(bs: seq<byte>): nat {
    if bs == [] then 0 else bs[0] + 256 * LE(bs[1..])
  }

  // The k low bytes of n, least significant byte first.
  function ToLE(n: nat, k: nat): (bs: seq<byte>)
    ensures |bs| == k
  {
    if k == 0 then [] else [n % 256] + ToLE(n / 256, k - 1)
  }

  function Pow256(k: nat): (p: nat)
    ensures p > 0
  {
    if k == 0 then 1 else 256 * Pow256(k - 1)
  }

  lemma {:induction false} DecodeEncode(n: nat, k: nat)
    requires n < Pow256(k)
    ensures LE(ToLE(n, k)) == n
  {
    if k == 0 {
    } else {
      DecodeEncode(n / 256, k - 1);
      assert ToLE(n, k)[1..] == ToLE(n / 256, k - 1);
    }
  }

  lemma {:induction false} EncodeDecode(bs: seq<byte>)
    ensures LE(bs) < Pow256(|bs|)
    ensures ToLE(LE(bs), |bs|) == bs
  {
    if bs == [] {
    } else {
      EncodeDecode(bs[1..]);
      LowDigit(bs[0], LE(bs[1..]));
      assert bs == [bs[0]] + bs[1..];
    }
  }

  lemma LowDigit(low: byte, high: nat)
    ensures (low + 256 * high) % 256 == low && (low + 256 * high) / 256 == high
  {
  }

  // Two fields of the same width with the same value are the same bytes.
  lemma LEInjective(a: seq<byte>, b: seq<byte>)
    requires |a| == |b| && LE(a) == LE(b)
    ensures a == b
  {
    EncodeDecode(a);
    EncodeDecode(b);
  }
}
