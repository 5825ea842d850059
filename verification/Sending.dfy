// The send loop, over a kernel that may take any part of what it is offered.
module Sending {
  import opened Bytes

  // Done: everything was taken. Failed: the kernel returned -1. Blocked: the
  // kernel has given no further answer yet, and the loop is still waiting.
  datatype Outcome = Done | Failed | Blocked

  // The socket: the bytes the kernel has accepted so far, and its answers to
  // the send calls to come. An answer of at least 0 is the number of bytes it
  // is ready to take, and it never takes more than it is offered.
  class Socket {
    var wire: seq<byte>
    var answers: seq<int>

    constructor (answers: seq<int>)
      requires forall i | 0 <= i < |answers| :: answers[i] >= -1
      ensures wire == [] && this.answers == answers
    {
      wire := [];
      this.answers := answers;
    }
  }

  // What becomes of an offer of `len` bytes: how many are taken, and how the
  // loop ends.
  function Accepted(len: nat, answers: seq<int>): (r: (nat, Outcome))
    requires forall i | 0 <= i < |answers| :: answers[i] >= -1
    ensures r.0 <= len
    decreases |answers|
  {
    if len == 0 then (0, Done)
    else if answers == [] then (0, Blocked)
    else if answers[0] == -1 then (0, Failed)
    else
      var n := if answers[0] <= len then answers[0] else len;
      var r := Accepted(len - n, answers[1..]);
      (n + r.0, r.1)
  }

  // Success means the whole buffer, and nothing else does.
  lemma {:induction false} DoneIffWhole(len: nat, answers: seq<int>)
    requires forall i | 0 <= i < |answers| :: answers[i] >= -1
    ensures Accepted(len, answers).1 == Done <==> Accepted(len, answers).0 == len
    decreases |answers|
  {
    if len == 0 || answers == [] || answers[0] == -1 {
    } else {
      DoneIffWhole(len - if answers[0] <= len then answers[0] else len, answers[1..]);
    }
  }

  // The answers before the first failure, and the bytes that the kernel was
  // ready to take with them.
  function BeforeFailure(answers: seq<int>): (r: seq<int>)
    requires forall i | 0 <= i < |answers| :: answers[i] >= -1
    ensures forall i | 0 <= i < |r| :: r[i] >= 0
  {
    if answers == [] || answers[0] == -1 then [] else [answers[0]] + BeforeFailure(answers[1..])
  }

  function Total(answers: seq<int>): nat
    requires forall i | 0 <= i < |answers| :: answers[i] >= 0
  {
    if answers == [] then 0 else answers[0] + Total(answers[1..])
  }

  // A send takes what the kernel is ready to take before it first fails, and
  // no more than there is; it is done when that is everything, has failed when
  // it is not and a failure came, and otherwise still waits.
  lemma {:induction false} TakenBeforeFailure(len: nat, answers: seq<int>)
    requires forall i | 0 <= i < |answers| :: answers[i] >= -1
    ensures var (taken, outcome) := Accepted(len, answers);
            var ready := Total(BeforeFailure(answers));
      && taken == (if ready < len then ready else len)
      && (outcome == Done <==> ready >= len)
      && (outcome == Failed <==> ready < len && -1 in answers)
      && (outcome == Blocked <==> ready < len && -1 !in answers)
    decreases |answers|
  {
    if answers == [] || answers[0] == -1 {
    } else {
      var rest := answers[1..];
      assert BeforeFailure(answers)[1..] == BeforeFailure(rest);
      assert -1 in answers <==> -1 in rest by { assert answers == [answers[0]] + rest; }
      if len > 0 {
        TakenBeforeFailure(len - if answers[0] <= len then answers[0] else len, rest);
      }
    }
  }

  method BlockingSend(socket: Socket, buffer: seq<byte>) returns (outcome: Outcome)
    requires forall i | 0 <= i < |socket.answers| :: socket.answers[i] >= -1
    modifies socket
    ensures outcome == Accepted(|buffer|, old(socket.answers)).1
    ensures socket.wire == old(socket.wire) + buffer[..Accepted(|buffer|, old(socket.answers)).0]
    ensures outcome == Done <==> socket.wire == old(socket.wire) + buffer
    ensures forall i | 0 <= i < |socket.answers| :: socket.answers[i] >= -1
  {
    ghost var answers := socket.answers;
    DoneIffWhole(|buffer|, answers);
    var sent := 0;
    while sent < |buffer|
      invariant 0 <= sent <= |buffer|
      invariant forall i | 0 <= i < |socket.answers| :: socket.answers[i] >= -1
      invariant socket.wire == old(socket.wire) + buffer[..sent]
      invariant Accepted(|buffer|, answers)
             == (sent + Accepted(|buffer| - sent, socket.answers).0, Accepted(|buffer| - sent, socket.answers).1)
      decreases |socket.answers|
    {
      if socket.answers == [] {
        return Blocked;
      }
      var n := socket.answers[0];
      if n > |buffer| - sent {
        n := |buffer| - sent;
      }
      socket.answers := socket.answers[1..];
      if n == -1 {
        return Failed;
      }
      socket.wire := socket.wire + buffer[sent..sent + n];
      assert buffer[..sent + n] == buffer[..sent] + buffer[sent..sent + n];
      sent := sent + n;
    }
    assert buffer[..sent] == buffer;
    return Done;
  }
}
