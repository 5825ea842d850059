// The client's own table of subscriptions, which it repeats whenever it
// connects: looked up by C string when one is made, by identifier when one
// is given up.
module ClientTable {
  import opened Bytes
  import opened Headers
  import opened IdCodec
  import opened Broker
  import opened BrokerInvariant
  import opened BrokerInterleaving
  import opened BrokerReconnect
  import BrokerRuns
  import BrokerTable

  type Key = id: seq<byte> | |id| == WIDTH witness seq(WIDTH, _ => 0)

  datatype Slot = Slot(id: Key, flags: Flags, counter: Word)

  // A slot whose first eight identifier bytes are all ones is free.
  predicate Free(slot: Slot) {
    forall k | 0 <= k < 8 :: slot.id[k] == 255
  }

  // The marker written over the first word.
  function Marked(id: Key): (r: Key) {
    seq(8, _ => 255) + id[8..]
  }

  // The words of a key: it is free exactly when the first one is the marker.
  lemma FreeIffMarker(slot: Slot)
    ensures Free(slot) <==> !Named(IdOfBytes(slot.id))
  {
    PowerOfEight();
    var low := slot.id[..8];
    var ones: seq<byte> := seq(8, _ => 255);
    OnesValue(ones, 8);
    if LE(low) == MARKER {
      LEInjective(low, ones);
      assert forall k | 0 <= k < 8 :: slot.id[k] == low[k];
    }
    if Free(slot) {
      assert low == ones;
    }
  }

  lemma MarkedIsFree(slot: Slot)
    ensures Free(slot.(id := Marked(slot.id)))
  {
  }

  // A name whose identifier is not the marker.
  predicate Name(cid: CString) {
    exists k | 0 <= k < 8 :: IdOf(cid)[k] != 255
  }

  // The lookups.
  function FindStr(slots: seq<Slot>, cid: CString): (i: nat)
    ensures i <= |slots|
    ensures forall j | 0 <= j < i :: !Matches(slots[j].id, cid)
    ensures i < |slots| ==> Matches(slots[i].id, cid)
  {
    if slots == [] || Matches(slots[0].id, cid) then 0 else 1 + FindStr(slots[1..], cid)
  }

  function FindKey(slots: seq<Slot>, id: Key): (i: nat)
    ensures i <= |slots|
    ensures forall j | 0 <= j < i :: slots[j].id != id
    ensures i < |slots| ==> slots[i].id == id
  {
    if slots == [] || slots[0].id == id then 0 else 1 + FindKey(slots[1..], id)
  }

  function FreeSlotOf(slots: seq<Slot>): (i: nat)
    ensures i <= |slots|
    ensures forall j | 0 <= j < i :: !Free(slots[j])
    ensures i < |slots| ==> Free(slots[i])
  {
    if slots == [] || Free(slots[0]) then 0 else 1 + FreeSlotOf(slots[1..])
  }

  // The slot that a subscription is put into.
  function Chosen(slots: seq<Slot>, cid: CString): (i: nat)
    ensures i <= |slots|
  {
    var i := FindStr(slots, cid);
    if i < |slots| then i else FreeSlotOf(slots)
  }

  function AfterSubscribe(slots: seq<Slot>, cid: CString, flags: Flags): (r: seq<Slot>)
    ensures |r| == |slots|
  {
    var i := Chosen(slots, cid);
    if i == |slots| then slots else slots[i := slots[i].(id := IdOf(cid), flags := flags)]
  }

  function AfterUnsubscribe(slots: seq<Slot>, cid: CString): (r: seq<Slot>)
    ensures |r| == |slots|
  {
    var i := FindKey(slots, IdOf(cid));
    if i == |slots| then slots else slots[i := slots[i].(id := Marked(slots[i].id))]
  }

  // What is repeated on connection, in slot order.
  function Wants(slots: seq<Slot>): seq<Want> {
    if slots == [] then []
    else
      var s := slots[|slots| - 1];
      Wants(slots[..|slots| - 1]) + if Free(s) then [] else [Want(IdOfBytes(s.id), s.flags, s.counter)]
  }

  // The table as the program means it: the keys in use.
  function Keys(slots: seq<Slot>): set<Key> {
    set i | 0 <= i < |slots| && !Free(slots[i]) :: slots[i].id
  }

  ghost predicate DistinctKeys(slots: seq<Slot>) {
    forall i, j | 0 <= i < j < |slots| && !Free(slots[i]) && !Free(slots[j]) :: slots[i].id != slots[j].id
  }

  // Every key in use is some string's identifier.
  ghost predicate FromNames(slots: seq<Slot>) {
    forall i | 0 <= i < |slots| && !Free(slots[i]) :: exists cid: CString :: slots[i].id == IdOf(cid)
  }

  // ------------------------------------------------------------ the lookups

  // A free slot is never taken for a name, a used one is taken for a short
  // name exactly when it holds its identifier, and never for a long name.
  lemma SlotMatches(slot: Slot, cid: CString)
    requires Name(cid) && (!Free(slot) ==> exists s: CString :: slot.id == IdOf(s))
    ensures Matches(slot.id, cid) <==> |cid| < WIDTH && slot.id == IdOf(cid)
  {
    var k :| 0 <= k < 8 && IdOf(cid)[k] != 255;
    if Free(slot) {
      var j := if |cid| <= k then |cid| else k;
      assert slot.id[j] == 255 && At(cid, j) != 255;
    } else {
      var s: CString :| slot.id == IdOf(s);
      LookupsAgreeIff(s, cid);
    }
  }

  // On short names the two lookups find the same slot; a long name is never
  // found by its string.
  lemma LookupsAgree(slots: seq<Slot>, cid: CString)
    requires FromNames(slots) && Name(cid)
    ensures FindStr(slots, cid) == if |cid| < WIDTH then FindKey(slots, IdOf(cid)) else |slots|
  {
    forall j | 0 <= j < |slots| ensures Matches(slots[j].id, cid) <==> |cid| < WIDTH && slots[j].id == IdOf(cid) {
      SlotMatches(slots[j], cid);
    }
    hide Matches, IdOf;
    var i, k := FindStr(slots, cid), FindKey(slots, IdOf(cid));
    if |cid| < WIDTH && i < |slots| {
      assert k <= i;
    }
    if |cid| < WIDTH && k < |slots| {
      assert i <= k;
    }
  }

  lemma FoundIff(slots: seq<Slot>, cid: CString)
    requires Name(cid)
    ensures FindKey(slots, IdOf(cid)) < |slots| <==> IdOf(cid) in Keys(slots)
  {
    var i := FindKey(slots, IdOf(cid));
    assert i < |slots| ==> !Free(slots[i]);
  }

  // -------------------------------------------------------- the operations

  // A slot takes a key that no other slot has.
  lemma KeyPut(slots: seq<Slot>, i: nat, slot: Slot)
    requires DistinctKeys(slots) && i < |slots| && !Free(slot)
    requires Free(slots[i]) || slots[i].id == slot.id
    ensures Keys(slots[i := slot]) == Keys(slots) + {slot.id}
    ensures DistinctKeys(slots[i := slot]) <==> !(Free(slots[i]) && slot.id in Keys(slots))
  {
    hide Free;
    var r := slots[i := slot];
    forall id | id in Keys(slots) + {slot.id} ensures id in Keys(r) {
      assert r[i] == slot;
      if id != slot.id {
        var k :| 0 <= k < |slots| && !Free(slots[k]) && slots[k].id == id;
        assert r[k] == slots[k];
      }
    }
    forall id | id in Keys(r) ensures id in Keys(slots) + {slot.id} {
      var k :| 0 <= k < |r| && !Free(r[k]) && r[k].id == id;
      assert k != i ==> r[k] == slots[k];
    }
    if Free(slots[i]) && slot.id in Keys(slots) {
      var k :| 0 <= k < |slots| && !Free(slots[k]) && slots[k].id == slot.id;
      assert r[k] == slots[k] && r[i] == slot && k != i;
    } else {
      forall j, k | 0 <= j < k < |r| && !Free(r[j]) && !Free(r[k]) ensures r[j].id != r[k].id {
        if j == i || k == i {
          var o := if j == i then k else j;
          assert r[o] == slots[o] && slots[o].id in Keys(slots);
        }
      }
    }
  }

  lemma NameIsUsed(cid: CString)
    requires Name(cid)
    ensures forall slot: Slot | slot.id == IdOf(cid) :: !Free(slot)
  {
  }

  lemma NamePut(slots: seq<Slot>, i: nat, slot: Slot, cid: CString)
    requires FromNames(slots) && i < |slots| && slot.id == IdOf(cid)
    ensures FromNames(slots[i := slot])
  {
    hide Free, IdOf;
  }

  // A subscription adds its key, when there is room. The table keeps one slot
  // for each key exactly when it was not a name too long to be found that is
  // already there.
  lemma SubscribeKeys(slots: seq<Slot>, cid: CString, flags: Flags)
    requires DistinctKeys(slots) && FromNames(slots) && Name(cid)
    ensures var r := AfterSubscribe(slots, cid, flags);
      && FromNames(r)
      && Keys(r) == (if FreeSlotOf(slots) < |slots| then Keys(slots) + {IdOf(cid)} else Keys(slots))
      && (DistinctKeys(r) <==> !(|cid| >= WIDTH && IdOf(cid) in Keys(slots) && FreeSlotOf(slots) < |slots|))
  {
    NameIsUsed(cid);
    hide IdOf, Matches, Free, DistinctKeys, Keys, FromNames, Name;
    LookupsAgree(slots, cid);
    FoundIff(slots, cid);
    var i := Chosen(slots, cid);
    if i < |slots| {
      var slot := slots[i].(id := IdOf(cid), flags := flags);
      assert !Free(slot) && (Free(slots[i]) || slots[i].id == slot.id);
      KeyPut(slots, i, slot);
      NamePut(slots, i, slot, cid);
    }
    if FindStr(slots, cid) < |slots| {
      assert Keys(slots) + {IdOf(cid)} == Keys(slots);
    }
  }

  lemma KeyRemoved(slots: seq<Slot>, i: nat, slot: Slot)
    requires DistinctKeys(slots) && i < |slots| && !Free(slots[i]) && Free(slot)
    ensures DistinctKeys(slots[i := slot]) && Keys(slots[i := slot]) == Keys(slots) - {slots[i].id}
  {
    hide Free;
    var r := slots[i := slot];
    assert forall k | 0 <= k < |slots| && k != i :: r[k] == slots[k];
    forall id | id in Keys(slots) - {slots[i].id} ensures id in Keys(r) {
      var k :| 0 <= k < |slots| && !Free(slots[k]) && slots[k].id == id;
      assert r[k] == slots[k];
    }
    forall id | id in Keys(r) ensures id in Keys(slots) - {slots[i].id} {
      var k :| 0 <= k < |r| && !Free(r[k]) && r[k].id == id;
      assert r[k] == slots[k];
    }
  }

  // Giving up a subscription removes its key, however long the name.
  lemma UnsubscribeKeys(slots: seq<Slot>, cid: CString)
    requires DistinctKeys(slots) && FromNames(slots) && Name(cid)
    ensures var r := AfterUnsubscribe(slots, cid);
      FromNames(r) && DistinctKeys(r) && Keys(r) == Keys(slots) - {IdOf(cid)}
  {
    FoundIff(slots, cid);
    var i := FindKey(slots, IdOf(cid));
    if i < |slots| {
      var slot := slots[i].(id := Marked(slots[i].id));
      MarkedIsFree(slots[i]);
      assert !Free(slots[i]);
      hide DistinctKeys, Keys, Free, IdOf, Marked;
      KeyRemoved(slots, i, slot);
    }
  }

  // An event that arrives leaves its stamp in its slot.
  function AfterEvent(slots: seq<Slot>, id: Key, counter: Word): (r: seq<Slot>)
    ensures |r| == |slots|
  {
    var i := FindKey(slots, id);
    if i == |slots| then slots else slots[i := slots[i].(counter := counter)]
  }

  lemma EventKeys(slots: seq<Slot>, id: Key, counter: Word)
    requires DistinctKeys(slots) && FromNames(slots)
    ensures var r := AfterEvent(slots, id, counter);
      FromNames(r) && DistinctKeys(r) && Keys(r) == Keys(slots)
  {
    var r := AfterEvent(slots, id, counter);
    assert forall i | 0 <= i < |slots| :: r[i].id == slots[i].id;
    assert forall i | 0 <= i < |slots| :: Free(r[i]) <==> Free(slots[i]);
    hide Free;
    forall k | k in Keys(slots) ensures k in Keys(r) {
      var i :| 0 <= i < |slots| && !Free(slots[i]) && slots[i].id == k;
      assert r[i].id == k;
    }
    forall k | k in Keys(r) ensures k in Keys(slots) {
      var i :| 0 <= i < |r| && !Free(r[i]) && r[i].id == k;
      assert slots[i].id == k;
    }
  }

  // ------------------------------------------------------------- whole runs

  datatype Op = Sub(cid: CString, flags: Flags) | Unsub(cid: CString) | Arrived(id: Key, counter: Word)

  // Programs are asked for names that are not the marker.
  predicate NamedOp(op: Op) {
    op.Arrived? || Name(op.cid)
  }

  function Apply(slots: seq<Slot>, op: Op): (r: seq<Slot>)
    ensures |r| == |slots|
  {
    match op
    case Sub(cid, flags) => AfterSubscribe(slots, cid, flags)
    case Unsub(cid) => AfterUnsubscribe(slots, cid)
    case Arrived(id, counter) => AfterEvent(slots, id, counter)
  }

  function Applied(slots: seq<Slot>, ops: seq<Op>): (r: seq<Slot>)
    ensures |r| == |slots|
  {
    if ops == [] then slots else Apply(Applied(slots, ops[..|ops| - 1]), ops[|ops| - 1])
  }

  // The subscriptions that a program has, as it sees them: a set with a
  // capacity.
  function Wanted(capacity: nat, ops: seq<Op>): set<Key> {
    if ops == [] then {}
    else
      var before := Wanted(capacity, ops[..|ops| - 1]);
      match ops[|ops| - 1]
      case Sub(cid, _) => if |before| < capacity then before + {IdOf(cid)} else before
      case Unsub(cid) => before - {IdOf(cid)}
      case Arrived(_, _) => before
  }

  lemma KeysStep(slots: seq<Slot>)
    requires slots != [] && DistinctKeys(slots)
    ensures var n := |slots| - 1;
            var last := slots[n];
      && DistinctKeys(slots[..n])
      && Keys(slots) == Keys(slots[..n]) + (if Free(last) then {} else {last.id})
      && (Free(last) || last.id !in Keys(slots[..n]))
  {
    hide Free;
    var n := |slots| - 1;
    var front, last := slots[..n], slots[n];
    assert forall i | 0 <= i < n :: front[i] == slots[i];
    forall id | id in Keys(slots) ensures id in Keys(front) + if Free(last) then {} else {last.id} {
      var i :| 0 <= i < |slots| && !Free(slots[i]) && slots[i].id == id;
      assert i < n ==> front[i].id == id;
    }
    forall id | id in Keys(front) ensures id in Keys(slots) && (Free(last) || id != last.id) {
      var i :| 0 <= i < n && !Free(front[i]) && front[i].id == id;
      assert slots[i].id == id;
    }
  }

  lemma {:induction false} KeyCount(slots: seq<Slot>)
    requires DistinctKeys(slots)
    ensures |Keys(slots)| <= |slots|
    ensures |Keys(slots)| == |slots| <==> FreeSlotOf(slots) == |slots|
  {
    if slots == [] {
      assert Keys(slots) == {};
    } else {
      KeysStep(slots);
      FreeSlotStep(slots);
      hide Free, Keys, DistinctKeys, FreeSlotOf;
      KeyCount(slots[..|slots| - 1]);
    }
  }

  lemma FreeSlotStep(slots: seq<Slot>)
    requires slots != []
    ensures var n := |slots| - 1;
      FreeSlotOf(slots) == |slots| <==> FreeSlotOf(slots[..n]) == n && !Free(slots[n])
  {
    hide Free;
    var n := |slots| - 1;
    var i, k := FreeSlotOf(slots), FreeSlotOf(slots[..n]);
    assert forall j | 0 <= j < n :: slots[..n][j] == slots[j];
  }

  // A subscription under a long name that the program already has, made while
  // it could have more.
  predicate Repeats(before: set<Key>, capacity: nat, op: Op) {
    op.Sub? && |op.cid| >= WIDTH && IdOf(op.cid) in before && |before| < capacity
  }

  predicate Unrepeated(capacity: nat, ops: seq<Op>) {
    ops == [] ||
    (Unrepeated(capacity, ops[..|ops| - 1])
     && !Repeats(Wanted(capacity, ops[..|ops| - 1]), capacity, ops[|ops| - 1]))
  }

  lemma ApplyKeys(slots: seq<Slot>, op: Op)
    requires DistinctKeys(slots) && FromNames(slots) && NamedOp(op)
    ensures var r := Apply(slots, op);
      && FromNames(r)
      && (DistinctKeys(r) <==> !Repeats(Keys(slots), |slots|, op))
      && Keys(r) == (match op
                     case Sub(cid, _) => if |Keys(slots)| < |slots| then Keys(slots) + {IdOf(cid)} else Keys(slots)
                     case Unsub(cid) => Keys(slots) - {IdOf(cid)}
                     case Arrived(_, _) => Keys(slots))
  {
    hide Free, IdOf, Name, FromNames, DistinctKeys, Keys, AfterSubscribe, AfterUnsubscribe, AfterEvent;
    KeyCount(slots);
    match op
    case Sub(cid, flags) => SubscribeKeys(slots, cid, flags);
    case Unsub(cid) => UnsubscribeKeys(slots, cid);
    case Arrived(id, counter) => EventKeys(slots, id, counter);
  }

  // Over every run that does not repeat a long name, the slots hold each of
  // the program's subscriptions once and nothing else.
  lemma {:induction false} RunKeys(slots: seq<Slot>, ops: seq<Op>)
    requires forall i | 0 <= i < |slots| :: Free(slots[i])
    requires forall k | 0 <= k < |ops| :: NamedOp(ops[k])
    requires Unrepeated(|slots|, ops)
    ensures var r := Applied(slots, ops);
      DistinctKeys(r) && FromNames(r) && Keys(r) == Wanted(|slots|, ops)
  {
    hide Free, IdOf, FromNames, DistinctKeys, Keys, Apply, NamedOp, Repeats;
    if ops == [] {
      NoKeys(slots);
    } else {
      RunKeys(slots, ops[..|ops| - 1]);
      assert NamedOp(ops[|ops| - 1]);
      ApplyKeys(Applied(slots, ops[..|ops| - 1]), ops[|ops| - 1]);
    }
  }

  ghost predicate AlwaysDistinct(slots: seq<Slot>, ops: seq<Op>) {
    DistinctKeys(Applied(slots, ops)) && (ops != [] ==> AlwaysDistinct(slots, ops[..|ops| - 1]))
  }

  // At every moment of a run one slot for each subscription, exactly when the
  // program never subscribes again under a long name that it already has,
  // while there is room.
  lemma {:induction false} OneSlotEachIff(slots: seq<Slot>, ops: seq<Op>)
    requires forall i | 0 <= i < |slots| :: Free(slots[i])
    requires forall k | 0 <= k < |ops| :: NamedOp(ops[k])
    ensures AlwaysDistinct(slots, ops) <==> Unrepeated(|slots|, ops)
  {
    hide Free, IdOf, FromNames, DistinctKeys, Keys, Apply, NamedOp, Repeats, Wanted;
    if ops == [] {
      NoKeys(slots);
    } else {
      var front := ops[..|ops| - 1];
      OneSlotEachIff(slots, front);
      assert NamedOp(ops[|ops| - 1]);
      if Unrepeated(|slots|, front) {
        RunKeys(slots, front);
        ApplyKeys(Applied(slots, front), ops[|ops| - 1]);
      }
    }
  }

  // Short names are never repeated.
  lemma {:induction false} ShortNamesUnrepeated(capacity: nat, ops: seq<Op>)
    requires forall k | 0 <= k < |ops| :: ops[k].Sub? ==> |ops[k].cid| < WIDTH
    ensures Unrepeated(capacity, ops)
  {
    hide Wanted;
    if ops == [] {
    } else {
      ShortNamesUnrepeated(capacity, ops[..|ops| - 1]);
      assert !Repeats(Wanted(capacity, ops[..|ops| - 1]), capacity, ops[|ops| - 1]);
    }
  }

  lemma NoKeys(slots: seq<Slot>)
    requires forall i | 0 <= i < |slots| :: Free(slots[i])
    ensures DistinctKeys(slots) && FromNames(slots) && Keys(slots) == {}
  {
    hide Free;
  }

  // ------------------------------------------------------------- the replay

  function WantIds(wants: seq<Want>): set<Id> {
    set k | 0 <= k < |wants| :: wants[k].id
  }

  lemma WantIdsSnoc(wants: seq<Want>, w: Want)
    requires DistinctWants(wants) && Named(w.id) && w.id !in WantIds(wants)
    ensures DistinctWants(wants + [w]) && WantIds(wants + [w]) == WantIds(wants) + {w.id}
  {
    var r := wants + [w];
    assert forall k | 0 <= k < |wants| :: r[k] == wants[k] && wants[k].id in WantIds(wants);
    forall id | id in WantIds(wants) + {w.id} ensures id in WantIds(r) {
      if id == w.id {
        assert r[|wants|].id == id;
      } else {
        var k :| 0 <= k < |wants| && wants[k].id == id;
        assert r[k].id == id;
      }
    }
  }

  lemma KeyOfId(a: Key, b: Key)
    ensures IdOfBytes(a) == IdOfBytes(b) <==> a == b
  {
    IdRoundTrip(IdOfBytes(a), a);
    IdRoundTrip(IdOfBytes(b), b);
  }

  // What is repeated names each key in use once, and no other.
  lemma {:induction false} WantsAreKeys(slots: seq<Slot>)
    requires DistinctKeys(slots)
    ensures DistinctWants(Wants(slots))
    ensures WantIds(Wants(slots)) == set key | key in Keys(slots) :: IdOfBytes(key)
  {
    hide Free, Keys, DistinctKeys, DistinctWants, WantIds, IdOfBytes;
    if slots == [] {
      EmptyWants(slots);
    } else {
      var front, last := slots[..|slots| - 1], slots[|slots| - 1];
      KeysStep(slots);
      WantsAreKeys(front);
      if Free(last) {
        assert Wants(front) + [] == Wants(front);
      } else {
        FreeIffMarker(last);
        forall key | key in Keys(front) ensures IdOfBytes(key) != IdOfBytes(last.id) {
          KeyOfId(key, last.id);
        }
        WantIdsSnoc(Wants(front), Want(IdOfBytes(last.id), last.flags, last.counter));
      }
    }
  }

  lemma EmptyWants(slots: seq<Slot>)
    requires slots == []
    ensures DistinctWants(Wants(slots)) && WantIds(Wants(slots)) == {} && Keys(slots) == {}
  {
  }

  // The whole way: a program keeps its subscriptions in the client's table,
  // the connection breaks and is made again, and the client repeats them. The
  // broker then has it on exactly those of the program's events that it
  // grants.
  lemma SubscriptionsSurviveReconnection(slots: seq<Slot>, ops: seq<Op>, s: State, c: ClientIx, fd: nat, addr: Addr,
                                         name: Id, minor: U32)
    requires forall i | 0 <= i < |slots| :: Free(slots[i])
    requires forall k | 0 <= k < |ops| :: NamedOp(ops[k])
    requires Unrepeated(|slots|, ops) && Inv(s) && Live(s, c)
    ensures var wants := Wants(Applied(slots, ops));
            var (u, d) := Returned(s, c, fd, addr);
            var t := Replayed(Greeted(u, d, name, MAJOR, minor).s, d, wants);
            var m := BrokerTable.TLeave(BrokerTable.Abs(s), c);
      && Inv(t) && Live(t, d)
      && WantIds(wants) == (set key | key in Wanted(|slots|, ops) :: IdOfBytes(key))
      && forall id | id in BrokerTable.Abs(t) ::
           (d in BrokerTable.Abs(t)[id].subs
            <==> exists k :: 0 <= k < |wants| && wants[k].id == id && Granted(m, wants, k))
  {
    hide Inv, Returned, Replayed, Greeted, BrokerTable.Abs, BrokerTable.TLeave, Live, DistinctWants, Granted;
    RunKeys(slots, ops);
    var r := Applied(slots, ops);
    WantsAreKeys(r);
    ReconnectRestores(s, c, fd, addr, name, minor, Wants(r));
  }

  // And among the steps of all others: in whatever run the client repeats its
  // table, it ends on exactly those of the program's events that were granted
  // when it asked, and have neither been undefined nor given up since.
  lemma SubscriptionsSurviveAmongOthers(slots: seq<Slot>, ops: seq<Op>, s: State, c: ClientIx, fd: nat, addr: Addr,
                                        xs: seq<BrokerRuns.Input>, id: Id)
    requires forall i | 0 <= i < |slots| :: Free(slots[i])
    requires forall k | 0 <= k < |ops| :: NamedOp(ops[k])
    requires Unrepeated(|slots|, ops) && Inv(s) && Live(s, c)
    requires var (u, d) := Returned(s, c, fd, addr);
      && BrokerRuns.LegalRun(u, xs) && StaysAll(u, xs, d)
      && AsksAll(u, xs, d) == Wants(Applied(slots, ops))
    ensures var (u, d) := Returned(s, c, fd, addr);
      && (Subscribes(BrokerTable.Abs(BrokerRuns.Run(u, xs)), d, id)
          <==> exists k :: 0 <= k < |xs| && GrantedAt(u, xs, d, id, k) && KeptSince(u, xs, d, id, k))
      && forall k | 0 <= k < |xs| && GrantedAt(u, xs, d, id, k) ::
           exists key :: key in Wanted(|slots|, ops) && IdOfBytes(key) == id
  {
    hide EventsOk, OnlyLive, Counted, UniqueChannels, UniqueAddrs, SocketsOk, EventShape;
    hide Returned, BrokerTable.Abs, BrokerRuns.Run, BrokerRuns.LegalRun, Live, StaysAll, GrantedAt, KeptSince, Wants;
    hide Free, NamedOp, Applied, Wanted, Unrepeated, AsksAll, IdOfBytes, Subscribes;
    ReturnsAmongOthers(s, c, fd, addr, xs, id);
    var (u, d) := Returned(s, c, fd, addr);
    forall k | 0 <= k < |xs| && GrantedAt(u, xs, d, id, k)
      ensures exists key :: key in Wanted(|slots|, ops) && IdOfBytes(key) == id
    {
      GrantedIsWanted(slots, ops, u, xs, d, id, k);
    }
  }

  lemma GrantedIsWanted(slots: seq<Slot>, ops: seq<Op>, u: State, xs: seq<BrokerRuns.Input>, d: ClientIx, id: Id,
      k: nat)
    requires forall i | 0 <= i < |slots| :: Free(slots[i])
    requires forall i | 0 <= i < |ops| :: NamedOp(ops[i])
    requires Unrepeated(|slots|, ops) && Shape(u)
    requires AsksAll(u, xs, d) == Wants(Applied(slots, ops)) && k < |xs| && GrantedAt(u, xs, d, id, k)
    ensures exists key :: key in Wanted(|slots|, ops) && IdOfBytes(key) == id
  {
    hide Shape, BrokerRuns.Run, GrantedAt, Wants, DistinctWants, Free, NamedOp, Applied, Wanted, Unrepeated, Keys;
    hide DistinctKeys, FromNames, AsksAll, IdOfBytes;
    RunKeys(slots, ops);
    WantsAreKeys(Applied(slots, ops));
    GrantedWasAsked(u, xs, d, id, k);
    assert id in WantIds(Wants(Applied(slots, ops)));
  }

  // What goes out on connection first: the introduction, then every
  // subscription.
  function Introduction(name: Id, slots: seq<Slot>): seq<Request> {
    [Hello(name, MAJOR, 1)] + Repeated(Wants(slots))
  }

  // A channel that the client has announced, with the ticket for it.
  datatype OwnChannel = OwnChannel(id: Key, port: U16, ticketFlags: U32)

  predicate Unused(ch: OwnChannel) {
    forall k | 0 <= k < 8 :: ch.id[k] == 255
  }

  function UnusedChannel(chs: seq<OwnChannel>): (i: nat)
    ensures i <= |chs|
    ensures forall j | 0 <= j < i :: !Unused(chs[j])
    ensures i < |chs| ==> Unused(chs[i])
  {
    if chs == [] || Unused(chs[0]) then 0 else 1 + UnusedChannel(chs[1..])
  }

  // And then every announcement.
  function Announcements(chs: seq<OwnChannel>): seq<Request> {
    if chs == [] then []
    else
      var ch := chs[|chs| - 1];
      Announcements(chs[..|chs| - 1])
      + if Unused(ch) then [] else [Announce(IdOfBytes(ch.id), ch.port, ch.ticketFlags)]
  }

  function Repeated(wants: seq<Want>): seq<Request> {
    seq(|wants|, i requires 0 <= i < |wants| => Request.Subscribe(wants[i].id, wants[i].flags, wants[i].counter))
  }

  // ----------------------------------------------------------- the table

  class Subscriptions {
    const slots: array<Slot>
    const channels: array<OwnChannel>

    ghost predicate Valid() {
      slots.Length == EVENTS && channels.Length == CHANNELS
    }

    constructor (initial: Slot, none: OwnChannel)
      requires Free(initial) && Unused(none)
      ensures Valid() && fresh(slots) && fresh(channels)
      ensures forall i | 0 <= i < EVENTS :: slots[i] == initial
      ensures forall i | 0 <= i < CHANNELS :: channels[i] == none
    {
      slots := new Slot[EVENTS](_ => initial);
      channels := new OwnChannel[CHANNELS](_ => none);
    }

    method FindEventStr(cid: CString) returns (i: nat)
      requires Valid()
      ensures i == FindStr(slots[..], cid)
    {
      ghost var all := slots[..];
      i := 0;
      while i < EVENTS
        invariant 0 <= i <= EVENTS
        invariant FindStr(all, cid) == i + FindStr(all[i..], cid)
      {
        assert all[i..][1..] == all[i + 1..];
        var same := IdCmpStr(slots[i].id, cid);
        if same {
          return;
        }
        i := i + 1;
      }
    }

    method FindEvent(id: Key) returns (i: nat)
      requires Valid()
      ensures i == FindKey(slots[..], id)
    {
      ghost var all := slots[..];
      i := 0;
      while i < EVENTS
        invariant 0 <= i <= EVENTS
        invariant FindKey(all, id) == i + FindKey(all[i..], id)
      {
        assert all[i..][1..] == all[i + 1..];
        if slots[i].id == id {
          return;
        }
        i := i + 1;
      }
    }

    method GetFreeEvent() returns (i: nat)
      requires Valid()
      ensures i == FreeSlotOf(slots[..])
    {
      ghost var all := slots[..];
      i := 0;
      while i < EVENTS
        invariant 0 <= i <= EVENTS
        invariant FreeSlotOf(all) == i + FreeSlotOf(all[i..])
      {
        assert all[i..][1..] == all[i + 1..];
        if Free(slots[i]) {
          return;
        }
        i := i + 1;
      }
    }

    // The request that goes out when there is a connection; None with a
    // negative code when the table is full.
    method Subscribe(cid: CString, flags: Flags, connected: bool) returns (sent: Option<Want>, code: int)
      requires Valid()
      modifies slots
      ensures slots[..] == AfterSubscribe(old(slots[..]), cid, flags)
      ensures code == if Chosen(old(slots[..]), cid) < EVENTS then 0 else -12
      ensures sent == if code == 0 && connected
                      then Some(Want(IdOfBytes(IdOf(cid)), flags, old(slots[Chosen(slots[..], cid)].counter))) else None
    {
      var i := FindEventStr(cid);
      if i == EVENTS {
        i := GetFreeEvent();
        if i == EVENTS {
          return None, -12;
        }
      }
      var id := new byte[WIDTH];
      IdStr(id, cid);
      slots[i] := slots[i].(id := id[..], flags := flags);
      if connected {
        return Some(Want(IdOfBytes(slots[i].id), flags, slots[i].counter)), 0;
      }
      return None, 0;
    }

    method Unsubscribe(cid: CString) returns (sent: Option<Id>)
      requires Valid()
      modifies slots
      ensures slots[..] == AfterUnsubscribe(old(slots[..]), cid)
      ensures sent == if FindKey(old(slots[..]), IdOf(cid)) < EVENTS then Some(IdOfBytes(IdOf(cid))) else None
    {
      var id := new byte[WIDTH];
      IdStr(id, cid);
      var i := FindEvent(id[..]);
      if i == EVENTS {
        return None;
      }
      sent := Some(IdOfBytes(slots[i].id));
      slots[i] := slots[i].(id := Marked(slots[i].id));
    }

    // An event from the server.
    method ProcessEvent(id: Key, counter: Word)
      requires Valid()
      modifies slots
      ensures slots[..] == AfterEvent(old(slots[..]), id, counter)
    {
      var i := FindEvent(id);
      if i < EVENTS {
        slots[i] := slots[i].(counter := counter);
      }
    }

    method FindFreeChannel() returns (i: nat)
      requires Valid()
      ensures i == UnusedChannel(channels[..])
    {
      ghost var all := channels[..];
      i := 0;
      while i < CHANNELS
        invariant 0 <= i <= CHANNELS
        invariant UnusedChannel(all) == i + UnusedChannel(all[i..])
      {
        assert all[i..][1..] == all[i + 1..];
        if Unused(channels[i]) {
          return;
        }
        i := i + 1;
      }
    }

    // A channel is noted in the first free place, and announced when there is
    // a connection.
    method AnnounceChannel(cid: CString, port: U16, ticketFlags: U32, connected: bool) returns (sent: Option<Request>)
      requires Valid() && UnusedChannel(channels[..]) < CHANNELS
      modifies channels
      ensures channels[..] == old(channels[..][UnusedChannel(channels[..]) := OwnChannel(IdOf(cid), port, ticketFlags)])
      ensures sent == if connected then Some(Announce(IdOfBytes(IdOf(cid)), port, ticketFlags)) else None
    {
      var i := FindFreeChannel();
      var id := new byte[WIDTH];
      IdStr(id, cid);
      channels[i] := OwnChannel(id[..], port, ticketFlags);
      sent := if connected then Some(Announce(IdOfBytes(channels[i].id), port, ticketFlags)) else None;
    }

    // What is sent on connection.
    method SendId(name: Id) returns (sent: seq<Request>)
      requires Valid()
      ensures sent == Introduction(name, slots[..]) + Announcements(channels[..])
    {
      sent := [Hello(name, MAJOR, 1)];
      var i := 0;
      while i < EVENTS
        invariant 0 <= i <= EVENTS
        invariant sent == Introduction(name, slots[..i])
      {
        assert slots[..i + 1][..i] == slots[..i];
        if !Free(slots[i]) {
          var w := Want(IdOfBytes(slots[i].id), slots[i].flags, slots[i].counter);
          assert Repeated(Wants(slots[..i]) + [w])
              == Repeated(Wants(slots[..i])) + [Request.Subscribe(w.id, w.flags, w.counter)];
          sent := sent + [Request.Subscribe(w.id, w.flags, w.counter)];
        }
        i := i + 1;
      }
      assert slots[..i] == slots[..];
      var announcements := AnnounceAgain();
      sent := sent + announcements;
    }

    method AnnounceAgain() returns (sent: seq<Request>)
      requires Valid()
      ensures sent == Announcements(channels[..])
    {
      sent := [];
      var i := 0;
      while i < CHANNELS
        invariant 0 <= i <= CHANNELS
        invariant sent == Announcements(channels[..i])
      {
        assert channels[..i + 1][..i] == channels[..i];
        if !Unused(channels[i]) {
          sent := sent + [Announce(IdOfBytes(channels[i].id), channels[i].port, channels[i].ticketFlags)];
        }
        i := i + 1;
      }
      assert channels[..i] == channels[..];
    }
  }
}
