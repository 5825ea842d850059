// What the client's table remembers of each subscription besides its name,
// and what it therefore repeats when it connects again.
module ClientMemory {
  import opened Bytes
  import opened Headers
  import opened IdCodec
  import opened Broker
  import opened BrokerReconnect
  import opened ClientTable

  // The flags under which a program last subscribed to each of its events.
  function LastFlags(capacity: nat, ops: seq<Op>): map<Key, Flags> {
    if ops == [] then map[]
    else
      var before := LastFlags(capacity, ops[..|ops| - 1]);
      match ops[|ops| - 1]
      case Sub(cid, flags) =>
        if |before| < capacity || (|cid| <= 31 && IdOf(cid) in before) then before[IdOf(cid) := flags] else before
      case Unsub(cid) => before - {IdOf(cid)}
      case Arrived(_, _) => before
  }

  // The counter of the last event that came in for each of them, if one has.
  function LastCounters(capacity: nat, ops: seq<Op>): map<Key, Word> {
    if ops == [] then map[]
    else
      var before := LastCounters(capacity, ops[..|ops| - 1]);
      match ops[|ops| - 1]
      case Sub(_, _) => before
      case Unsub(cid) => before - {IdOf(cid)}
      case Arrived(id, counter) =>
        if id in LastFlags(capacity, ops[..|ops| - 1]) then before[id := counter] else before
  }

  // A used slot holds what is remembered for its key.
  predicate Holds(slot: Slot, flags: map<Key, Flags>, counters: map<Key, Word>) {
    Free(slot) || (&& slot.id in flags && flags[slot.id] == slot.flags
                   && (slot.id in counters ==> counters[slot.id] == slot.counter))
  }

  ghost predicate Remembers(slots: seq<Slot>, flags: map<Key, Flags>, counters: map<Key, Word>) {
    && flags.Keys == Keys(slots) && counters.Keys <= flags.Keys
    && forall i | 0 <= i < |slots| :: Holds(slots[i], flags, counters)
  }

  // One slot is replaced, and the others still hold what is remembered.
  lemma SlotRemembers(slots: seq<Slot>, i: nat, slot: Slot, f: map<Key, Flags>, n: map<Key, Word>)
    requires i < |slots| && f.Keys == Keys(slots[i := slot]) && n.Keys <= f.Keys && Holds(slot, f, n)
    requires forall k | 0 <= k < |slots| && k != i :: Holds(slots[k], f, n)
    ensures Remembers(slots[i := slot], f, n)
  {
    hide Holds, Keys;
  }

  lemma OthersDiffer(slots: seq<Slot>, i: nat, key: Key)
    requires DistinctKeys(slots) && i < |slots|
    requires (!Free(slots[i]) && slots[i].id == key) || key !in Keys(slots)
    ensures forall k | 0 <= k < |slots| && k != i && !Free(slots[k]) :: slots[k].id != key
  {
    hide Free;
  }

  lemma HeldBy(slots: seq<Slot>, f: map<Key, Flags>, n: map<Key, Word>, k: nat)
    requires Remembers(slots, f, n) && k < |slots|
    ensures Holds(slots[k], f, n)
  {
  }

  lemma KeysHeld(slots: seq<Slot>, f: map<Key, Flags>, n: map<Key, Word>)
    requires Remembers(slots, f, n)
    ensures f.Keys == Keys(slots) && n.Keys <= f.Keys && |f| == |Keys(slots)|
  {
    assert |f| == |f.Keys|;
  }

  // Where a subscription goes: to the slot of its key, or to a free one when
  // the key is not there.
  lemma ChosenIs(slots: seq<Slot>, cid: CString, flags: Flags)
    requires DistinctKeys(slots) && FromNames(slots) && Name(cid)
    requires !Repeats(Keys(slots), |slots|, Sub(cid, flags))
    ensures var i, key := Chosen(slots, cid), IdOf(cid);
      && (i < |slots| <==> |Keys(slots)| < |slots| || (|cid| <= 31 && key in Keys(slots)))
      && (i < |slots| ==> (!Free(slots[i]) && slots[i].id == key) || key !in Keys(slots))
  {
    KeyCount(slots);
    NameIsUsed(cid);
    hide Free, IdOf, Matches, FromNames, Name, DistinctKeys, Keys;
    LookupsAgree(slots, cid);
    FoundIff(slots, cid);
  }

  lemma SubscribeRemembers(slots: seq<Slot>, cid: CString, flags: Flags, f: map<Key, Flags>, n: map<Key, Word>)
    requires DistinctKeys(slots) && FromNames(slots) && Name(cid) && Remembers(slots, f, n)
    requires !Repeats(Keys(slots), |slots|, Sub(cid, flags))
    ensures Remembers(AfterSubscribe(slots, cid, flags),
                      if |f| < |slots| || (|cid| <= 31 && IdOf(cid) in f) then f[IdOf(cid) := flags] else f, n)
  {
    hide Free, IdOf, Matches, FromNames, Name, DistinctKeys, Keys, Remembers, Repeats, Chosen, Holds, FreeSlotOf;
    ChosenIs(slots, cid, flags);
    SubscribeKeys(slots, cid, flags);
    KeyCount(slots);
    KeysHeld(slots, f, n);
    var i, key := Chosen(slots, cid), IdOf(cid);
    if i < |slots| {
      OthersDiffer(slots, i, key);
      HeldBy(slots, f, n, i);
      var g, slot := f[key := flags], slots[i].(id := key, flags := flags);
      forall k | 0 <= k < |slots| && k != i ensures Holds(slots[k], g, n) {
        HeldBy(slots, f, n, k);
        HoldsOther(slots[k], f, n, key, flags);
      }
      HoldsNow(slots[i], f, n, key, flags);
      assert g.Keys == f.Keys + {key};
      assert Keys(slots) + {key} == g.Keys;
      if FreeSlotOf(slots) == |slots| {
        assert key in Keys(slots);
        assert Keys(slots) + {key} == Keys(slots);
      }
      SlotRemembers(slots, i, slot, g, n);
    }
  }

  lemma HoldsOther(slot: Slot, f: map<Key, Flags>, n: map<Key, Word>, key: Key, flags: Flags)
    requires Holds(slot, f, n) && (!Free(slot) ==> slot.id != key)
    ensures Holds(slot, f[key := flags], n)
  {
    hide Free;
  }

  lemma HoldsNow(slot: Slot, f: map<Key, Flags>, n: map<Key, Word>, key: Key, flags: Flags)
    requires Holds(slot, f, n) && n.Keys <= f.Keys && ((!Free(slot) && slot.id == key) || key !in f)
    ensures Holds(slot.(id := key, flags := flags), f[key := flags], n)
  {
    hide Free;
  }

  lemma UnsubscribeRemembers(slots: seq<Slot>, cid: CString, f: map<Key, Flags>, n: map<Key, Word>)
    requires DistinctKeys(slots) && FromNames(slots) && Name(cid) && Remembers(slots, f, n)
    ensures Remembers(AfterUnsubscribe(slots, cid), f - {IdOf(cid)}, n - {IdOf(cid)})
  {
    UnsubscribeKeys(slots, cid);
    FoundIff(slots, cid);
    var i, r := FindKey(slots, IdOf(cid)), AfterUnsubscribe(slots, cid);
    if i < |slots| {
      MarkedIsFree(slots[i]);
      NameIsUsed(cid);
    }
    hide Free, IdOf, FromNames, Name, Marked;
    forall k | 0 <= k < |slots| ensures Holds(r[k], f - {IdOf(cid)}, n - {IdOf(cid)}) {
      if k != i && !Free(slots[k]) {
        assert r[k] == slots[k] && slots[k].id in Keys(slots);
        assert slots[k].id != IdOf(cid);
      }
    }
  }

  lemma EventRemembers(slots: seq<Slot>, id: Key, counter: Word, f: map<Key, Flags>, n: map<Key, Word>)
    requires DistinctKeys(slots) && FromNames(slots) && Remembers(slots, f, n)
    ensures Remembers(AfterEvent(slots, id, counter), f, if id in f then n[id := counter] else n)
  {
    EventKeys(slots, id, counter);
    KeysHeld(slots, f, n);
    var i, n' := FindKey(slots, id), if id in f then n[id := counter] else n;
    hide FromNames;
    if i < |slots| {
      var slot := slots[i].(counter := counter);
      SameFree(slots[i], slot);
      UsedIsKey(slots, i);
      if Free(slots[i]) {
        FirstIsFree(slots, id);
      } else {
        OthersDiffer(slots, i, id);
      }
      hide Free, DistinctKeys, Keys, Remembers;
      HeldBy(slots, f, n, i);
      forall k | 0 <= k < |slots| && k != i ensures Holds(slots[k], f, n') {
        HeldBy(slots, f, n, k);
      }
      SlotRemembers(slots, i, slot, f, n');
    } else {
      assert id !in Keys(slots);
    }
  }

  lemma SameFree(a: Slot, b: Slot)
    requires a.id == b.id
    ensures Free(a) <==> Free(b)
  {
  }

  lemma UsedIsKey(slots: seq<Slot>, i: nat)
    requires i < |slots|
    ensures !Free(slots[i]) ==> slots[i].id in Keys(slots)
  {
    hide Free;
  }

  // A free identifier is no key.
  lemma FirstIsFree(slots: seq<Slot>, id: Key)
    requires FindKey(slots, id) < |slots| && Free(slots[FindKey(slots, id)])
    ensures id !in Keys(slots) && forall k | 0 <= k < |slots| && !Free(slots[k]) :: slots[k].id != id
  {
    forall k | 0 <= k < |slots| && slots[k].id == id ensures Free(slots[k]) {
      SameFree(slots[FindKey(slots, id)], slots[k]);
    }
    hide Free;
  }

  // Over every run that does not repeat a long name, each used slot has the
  // flags of the last subscription under its name, and the counter of the last
  // event that came in since.
  lemma {:induction false} RunRemembers(slots: seq<Slot>, ops: seq<Op>)
    requires forall i | 0 <= i < |slots| :: Free(slots[i])
    requires forall k | 0 <= k < |ops| :: NamedOp(ops[k])
    requires Unrepeated(|slots|, ops)
    ensures Remembers(Applied(slots, ops), LastFlags(|slots|, ops), LastCounters(|slots|, ops))
  {
    hide Free, IdOf, FromNames, DistinctKeys, Keys, AfterSubscribe, AfterUnsubscribe, AfterEvent, Repeats, Name;
    hide Remembers;
    if ops == [] {
      NothingRemembered(slots);
    } else {
      var front := ops[..|ops| - 1];
      RunRemembers(slots, front);
      RunKeys(slots, front);
      assert NamedOp(ops[|ops| - 1]);
      var now, f, n := Applied(slots, front), LastFlags(|slots|, front), LastCounters(|slots|, front);
      match ops[|ops| - 1]
      case Sub(cid, flags) => SubscribeRemembers(now, cid, flags, f, n);
      case Unsub(cid) => UnsubscribeRemembers(now, cid, f, n);
      case Arrived(id, counter) => EventRemembers(now, id, counter, f, n);
    }
  }

  lemma NothingRemembered(slots: seq<Slot>)
    requires forall i | 0 <= i < |slots| :: Free(slots[i])
    ensures Remembers(slots, map[], map[])
  {
    NoKeys(slots);
    hide Free;
  }

  lemma {:induction false} WantsAreSlots(slots: seq<Slot>, w: Want)
    requires w in Wants(slots)
    ensures exists i :: 0 <= i < |slots| && !Free(slots[i])
                        && w == Want(IdOfBytes(slots[i].id), slots[i].flags, slots[i].counter)
  {
    hide Free, IdOfBytes;
    var n := |slots| - 1;
    if w in Wants(slots[..n]) {
      WantsAreSlots(slots[..n], w);
      var i :| 0 <= i < n && !Free(slots[..n][i])
               && w == Want(IdOfBytes(slots[..n][i].id), slots[..n][i].flags, slots[..n][i].counter);
      assert slots[i] == slots[..n][i];
    } else {
      assert !Free(slots[n]) && w == Want(IdOfBytes(slots[n].id), slots[n].flags, slots[n].counter);
    }
  }

  // So what the client repeats on connection is what its program last asked
  // for under each name, with the counter of the last event that came in.
  lemma RepeatedAsAsked(slots: seq<Slot>, ops: seq<Op>, w: Want)
    requires forall i | 0 <= i < |slots| :: Free(slots[i])
    requires forall k | 0 <= k < |ops| :: NamedOp(ops[k])
    requires Unrepeated(|slots|, ops) && w in Wants(Applied(slots, ops))
    ensures exists key :: key in LastFlags(|slots|, ops)
                          && w.id == IdOfBytes(key) && w.flags == LastFlags(|slots|, ops)[key]
                          && (key in LastCounters(|slots|, ops) ==> w.counter == LastCounters(|slots|, ops)[key])
  {
    hide Free, IdOfBytes, Wants, Applied, LastFlags, LastCounters, NamedOp, Unrepeated, Keys;
    RunRemembers(slots, ops);
    var r := Applied(slots, ops);
    WantsAreSlots(r, w);
    var i :| 0 <= i < |r| && !Free(r[i]) && w == Want(IdOfBytes(r[i].id), r[i].flags, r[i].counter);
    assert Holds(r[i], LastFlags(|slots|, ops), LastCounters(|slots|, ops));
  }

  // --------------------------------------------------------------- channels

  datatype Announcing = Announcing(cid: CString, port: U16, flags: U32)

  // What a place is filled with, and what is sent for it.
  function Place(a: Announcing): OwnChannel {
    OwnChannel(IdOf(a.cid), a.port, a.flags)
  }

  function Sending(a: Announcing): Request {
    Announce(IdOfBytes(IdOf(a.cid)), a.port, a.flags)
  }

  // The first places hold the announcements of a program, in its order.
  predicate InOrder(chs: seq<OwnChannel>, list: seq<Announcing>) {
    && |list| <= |chs|
    && (forall k | 0 <= k < |list| :: chs[k] == Place(list[k]))
    && (forall k | |list| <= k < |chs| :: Unused(chs[k]))
  }

  lemma PlaceIsUsed(a: Announcing)
    requires Name(a.cid)
    ensures !Unused(Place(a))
  {
  }

  lemma FirstUnused(chs: seq<OwnChannel>, list: seq<Announcing>)
    requires InOrder(chs, list) && |list| < |chs| && forall k | 0 <= k < |list| :: Name(list[k].cid)
    ensures UnusedChannel(chs) == |list|
  {
    var i := UnusedChannel(chs);
    hide Unused, Place, Name, UnusedChannel;
    if i < |list| {
      PlaceIsUsed(list[i]);
    }
    assert Unused(chs[|list|]);
  }

  // An announcement goes behind those made before.
  lemma AnnouncedBehind(chs: seq<OwnChannel>, list: seq<Announcing>, a: Announcing)
    requires InOrder(chs, list) && |list| < |chs| && forall k | 0 <= k < |list| :: Name(list[k].cid)
    ensures UnusedChannel(chs) == |list| && InOrder(chs[UnusedChannel(chs) := Place(a)], list + [a])
  {
    hide Unused, Place, Name, UnusedChannel;
    FirstUnused(chs, list);
    var r, all := chs[|list| := Place(a)], list + [a];
    forall k | 0 <= k < |all| ensures r[k] == Place(all[k]) {
      assert k < |list| ==> chs[k] == Place(list[k]);
    }
  }

  // And on connection they are repeated as they were made, in that order.
  lemma {:induction false} AnnouncedAgain(chs: seq<OwnChannel>, list: seq<Announcing>)
    requires InOrder(chs, list) && forall k | 0 <= k < |list| :: Name(list[k].cid)
    ensures Announcements(chs) == seq(|list|, k requires 0 <= k < |list| => Sending(list[k]))
    decreases |chs|
  {
    hide Place, Sending, Unused, Name, IdOfBytes;
    if chs == [] {
    } else {
      var n := |chs| - 1;
      if |list| == |chs| {
        PlaceIsUsed(list[n]);
        SentForPlace(list[n]);
        AnnouncedAgain(chs[..n], list[..n]);
      } else {
        AnnouncedAgain(chs[..n], list);
      }
    }
  }

  lemma SentForPlace(a: Announcing)
    ensures Sending(a) == Announce(IdOfBytes(Place(a).id), Place(a).port, Place(a).ticketFlags)
  {
  }
}
