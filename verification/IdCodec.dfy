// The fixed-width identifier codec: C strings to 32-byte identifiers, and the
// two ways of comparing them.
module IdCodec {
  import opened Bytes
  import opened Headers

  const WIDTH: nat := 32

  // A C string, without its terminator.
  type CString = s: seq<byte> | 0 !in s

  // What reading the C string at an index gives: the terminator is at its end.
  function At(s: CString, i: nat): byte
    requires i <= |s|
  {
    if i < |s| then s[i] else 0
  }

  // The identifier of a string: at most 31 of its bytes, padded with zeros.
  function IdOf(s: CString): (id: seq<byte>)
    ensures |id| == WIDTH
  {
    seq(WIDTH, i requires 0 <= i < WIDTH => if i < WIDTH - 1 && i < |s| then s[i] else 0)
  }

  method IdStr(a: array<byte>, b: CString)
    requires a.Length == WIDTH
    modifies a
    ensures a[..] == IdOf(b)
  {
    forall k | 0 <= k < WIDTH {
      a[k] := 0;
    }
    var i, s := WIDTH - 1, 0;
    while i > 0
      invariant 0 <= i < WIDTH && s == WIDTH - 1 - i && s <= |b|
      invariant forall k | 0 <= k < s :: a[k] == b[k]
      invariant forall k | s <= k < WIDTH :: a[k] == 0
    {
      a[s] := At(b, s);
      if a[s] == 0 {
        break;
      }
      assert s < |b|;
      i, s := i - 1, s + 1;
    }
  }

  // Identifier against C string: the comparison of the client's table lookup.
  method IdCmpStr(a: seq<byte>, b: CString) returns (same: bool)
    requires |a| == WIDTH
    ensures same <==> Matches(a, b)
  {
    var i, s := WIDTH - 1, 0;
    while i > 0 && At(b, s) != 0
      invariant 0 <= i < WIDTH && s == WIDTH - 1 - i && s <= |b|
      invariant forall k | 0 <= k < s :: a[k] == b[k]
    {
      if a[s] != At(b, s) {
        return false;
      }
      i, s := i - 1, s + 1;
    }
    assert At(b, s) == 0 <==> s == |b| by {
      if s < |b| { assert b[s] in b; }
    }
    return a[s] == At(b, s);
  }

  // The string and its terminator, as far as 32 bytes go, are in the
  // identifier.
  predicate Matches(a: seq<byte>, b: CString)
    requires |a| == WIDTH
  {
    forall k | 0 <= k < WIDTH && k <= |b| :: a[k] == At(b, k)
  }

  // Back to a C string: the bytes up to the first zero, at most 31 of them.
  // The destination is a C buffer that already holds something; the copy
  // stops after 31 bytes without terminating it.
  method StrIdCpy(a: array<byte>, b: seq<byte>)
    requires |b| == WIDTH && a.Length >= WIDTH
    modifies a
    ensures forall k | 0 <= k < WIDTH - 1 && 0 !in b[..k] :: a[k] == b[k]
    ensures forall k | 0 <= k < a.Length && (k >= WIDTH - 1 || 0 in b[..k]) :: a[k] == old(a[k])
  {
    var i, s := WIDTH - 1, 0;
    while i > 0
      invariant 0 <= i < WIDTH && s == WIDTH - 1 - i
      invariant 0 !in b[..s]
      invariant forall k | 0 <= k < s :: a[k] == b[k]
      invariant forall k | s <= k < a.Length :: a[k] == old(a[k])
    {
      a[s] := b[s];
      if a[s] == 0 {
        assert forall k | s < k < WIDTH :: b[..k][s] == 0;
        assert forall k | 0 <= k <= s :: b[..k] <= b[..s];
        return;
      }
      assert b[..s + 1] == b[..s] + [b[s]];
      i, s := i - 1, s + 1;
    }
    assert forall k | 0 <= k <= s :: b[..k] <= b[..s];
  }

  // The identifier of a short string shows where the string ends.
  lemma NameEnds(s: CString)
    requires |s| < WIDTH
    ensures IdOf(s)[|s|] == 0 && forall k | 0 <= k < |s| :: IdOf(s)[k] != 0
  {
    forall k | 0 <= k < |s| ensures IdOf(s)[k] != 0 {
      assert s[k] in s;
    }
  }

  // Strings of at most 31 bytes have different identifiers.
  lemma IdOfInjective(s: CString, t: CString)
    requires |s| < WIDTH && |t| < WIDTH
    requires IdOf(s) == IdOf(t)
    ensures s == t
  {
    NameEnds(s);
    NameEnds(t);
    forall k | 0 <= k < |s| ensures s[k] == t[k] {
      assert IdOf(s)[k] == s[k] && IdOf(t)[k] == t[k];
    }
  }

  // When string lookup and identifier lookup agree: they disagree exactly
  // when the key has more than 31 bytes and its identifier is the stored one.
  lemma LookupsAgreeIff(s: CString, key: CString)
    ensures (Matches(IdOf(s), key) <==> IdOf(s) == IdOf(key))
       <==> (|key| < WIDTH || IdOf(s) != IdOf(key))
    ensures |key| >= WIDTH ==> !Matches(IdOf(s), key)
  {
    if |key| >= WIDTH {
      assert IdOf(s)[31] == 0 && key[31] in key;
    } else {
      ShortLookup(s, key);
    }
  }

  // The keys for which the two always agree, whatever is stored.
  lemma AgreeForAllIff(key: CString)
    ensures (forall s: CString :: Matches(IdOf(s), key) <==> IdOf(s) == IdOf(key)) <==> |key| < WIDTH
  {
    forall s: CString
      ensures (Matches(IdOf(s), key) <==> IdOf(s) == IdOf(key)) <==> (|key| < WIDTH || IdOf(s) != IdOf(key))
    {
      LookupsAgreeIff(s, key);
    }
    if |key| >= WIDTH {
      LookupsAgreeIff(key, key);
      assert !(Matches(IdOf(key), key) <==> IdOf(key) == IdOf(key));
    }
  }

  lemma ShortLookup(s: CString, key: CString)
    requires |key| < WIDTH
    ensures Matches(IdOf(s), key) <==> IdOf(s) == IdOf(key)
  {
    assert forall k | 0 <= k <= |key| :: IdOf(key)[k] == At(key, k);
    if Matches(IdOf(s), key) {
      assert IdOf(s)[|key|] == 0;
      forall k | 0 <= k < WIDTH ensures IdOf(s)[k] == IdOf(key)[k] {
        if k <= |key| {
          assert IdOf(s)[k] == At(key, k);
        }
      }
    }
  }

  // The words that the broker compares stand for the same strings.
  lemma WordsInjective(s: CString, t: CString)
    ensures IdOfBytes(IdOf(s)) == IdOfBytes(IdOf(t)) <==> IdOf(s) == IdOf(t)
  {
    IdRoundTrip(IdOfBytes(IdOf(s)), IdOf(s));
    IdRoundTrip(IdOfBytes(IdOf(t)), IdOf(t));
  }

  // No string makes the free-slot marker unless it starts with eight 0xff
  // bytes.
  lemma MarkerIsNoName(s: CString)
    requires IdOfBytes(IdOf(s)).w0 == 0xFFFF_FFFF_FFFF_FFFF
    ensures |s| >= 8 && forall k | 0 <= k < 8 :: s[k] == 255
  {
    PowerOfEight();
    var low := IdOf(s)[..8];
    var ones: seq<byte> := seq(8, _ => 255);
    assert LE(ones) == 0xFFFF_FFFF_FFFF_FFFF by { OnesValue(ones, 8); }
    LEInjective(low, ones);
    forall k | 0 <= k < 8 ensures k < |s| && IdOf(s)[k] == 255 {
      assert low[k] == ones[k] == 255 && low[k] == IdOf(s)[k];
    }
    assert IdOf(s)[7] == 255;
    forall k | 0 <= k < 8 ensures s[k] == 255 {
      assert IdOf(s)[k] == s[k];
    }
  }

  lemma {:induction false} OnesValue(bs: seq<byte>, k: nat)
    requires |bs| == k && forall i | 0 <= i < k :: bs[i] == 255
    ensures LE(bs) == Pow256(k) - 1
  {
    if k == 0 {
    } else {
      OnesValue(bs[1..], k - 1);
    }
  }
}
