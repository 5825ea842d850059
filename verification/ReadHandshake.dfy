// The client's READ handshake: a caller that asks and waits, and a receiver
// thread that fills in the answer.
module ReadHandshake {
  import opened Bytes
  import opened Headers

  const CAPACITY: nat := 0x1ff

  // A READ reply that reaches the client: an answer to this request or a
  // stale one.
  datatype Reply = Reply(id: Id, payload: seq<byte>)

  // The fields the two threads share.
  datatype Shared = Shared(waiting: bool, id: Id, size: nat, data: seq<byte>)

  function Asked(s: Shared, id: Id): Shared {
    s.(waiting := true, id := id)
  }

  function Received(s: Shared, r: Reply): Shared {
    if s.waiting && s.id == r.id
    then s.(waiting := false, size := |r.payload|,
        data := r.payload + if |r.payload| <= |s.data| then s.data[|r.payload|..] else [])
    else s
  }

  function ReceivedAll(s: Shared, replies: seq<Reply>): Shared {
    if replies == [] then s else Received(ReceivedAll(s, replies[..|replies| - 1]), replies[|replies| - 1])
  }

  class ReadPort {
    var waiting: bool
    var id: Id
    var size: nat
    const data: array<byte>

    ghost predicate Valid()
      reads this, data
    {
      data.Length == CAPACITY && size <= CAPACITY
    }

    ghost function State(): Shared
      reads this, data
    {
      Shared(waiting, id, size, data[..])
    }

    constructor ()
      ensures Valid() && fresh(data) && !waiting
    {
      data := new byte[CAPACITY];
      waiting, id, size := false, Id(0, 0, 0, 0), 0;
    }

    // The caller: raise the flag and note what is asked for, as one step.
    method Ask(id: Id)
      requires Valid()
      modifies this
      ensures Valid() && State() == Asked(old(State()), id)
    {
      waiting := true;
      this.id := id;
    }

    // The receiver thread, under the mutex. The framer's masked sizes bound
    // the payload.
    method OnReply(r: Reply)
      requires Valid() && |r.payload| <= CAPACITY
      modifies this, data
      ensures Valid() && State() == Received(old(State()), r)
    {
      if waiting && id == r.id {
        size := |r.payload|;
        forall k | 0 <= k < |r.payload| {
          data[k] := r.payload[k];
        }
        waiting := false;
        assert data[..] == r.payload + old(data[..])[|r.payload|..];
      }
    }

    // The caller, once the flag is down: at most `limit` bytes of the answer.
    method Take(limit: nat) returns (answer: seq<byte>)
      requires Valid() && !waiting
      ensures answer == data[..if limit > size then size else limit]
    {
      var n := if limit > size then size else limit;
      answer := data[..n];
    }
  }

  // The index of the first reply for an id.
  function FirstFor(replies: seq<Reply>, id: Id): (i: nat)
    ensures i <= |replies|
    ensures forall j | 0 <= j < i :: replies[j].id != id
    ensures i < |replies| ==> replies[i].id == id
  {
    if replies == [] then 0
    else if replies[0].id == id then 0
    else 1 + FirstFor(replies[1..], id)
  }

  // From whatever state earlier requests left behind, and whatever replies
  // come in after a request, stale or not: the caller is released exactly
  // when one of them is for the id it asked for, it finds the payload of the
  // first of these, and no later reply changes it before the next request.
  lemma {:induction false} AnswerIsFirstMatchingReply(before: Shared, id: Id, replies: seq<Reply>)
    ensures var s := ReceivedAll(Asked(before, id), replies);
            var i := FirstFor(replies, id);
      && s.id == id
      && (!s.waiting <==> i < |replies|)
      && (i < |replies| ==> s.size == |replies[i].payload| && replies[i].payload <= s.data)
  {
    if replies == [] {
    } else {
      var n := |replies| - 1;
      AnswerIsFirstMatchingReply(before, id, replies[..n]);
      var i, k := FirstFor(replies, id), FirstFor(replies[..n], id);
      assert i < n ==> replies[..n][i].id == id;
      assert k < n ==> replies[k].id == id;
      assert i == k || (k == n && i >= n);
    }
  }

  // What a successful read returns: the bytes of that reply, cut to the
  // caller's limit.
  lemma ReadReturnsTheReply(before: Shared, id: Id, replies: seq<Reply>, limit: nat)
    requires !ReceivedAll(Asked(before, id), replies).waiting
    ensures var s := ReceivedAll(Asked(before, id), replies);
            var i := FirstFor(replies, id);
            var n := if limit > s.size then s.size else limit;
      i < |replies| && replies[i].id == id && n <= |s.data| && n <= |replies[i].payload|
      && s.data[..n] == replies[i].payload[..n]
  {
    AnswerIsFirstMatchingReply(before, id, replies);
  }
}
