// The client's side of the list protocol, under loss, duplication, reordering
// and stale answers.
module ListReassembly {
  import opened Bytes
  import opened ListPaging

  // What the receiver thread keeps for one kind of list.
  datatype Reader<T> = Reader(sequence: byte, expected: byte, received: nat, waiting: bool, table: seq<T>)

  function Requested<T>(r: Reader<T>): Reader<T> {
    Reader((r.sequence + 1) % 256, 0, 0, true, r.table)
  }

  predicate Accepts<T>(r: Reader<T>, p: Page<T>) {
    p.sequence == r.sequence && p.index == r.expected
  }

  // Where the page would be copied to is inside the table.
  predicate Fits<T>(r: Reader<T>, p: Page<T>) {
    Accepts(r, p) ==> r.received + |p.items| <= |r.table|
  }

  function Received<T>(r: Reader<T>, p: Page<T>): (r': Reader<T>)
    requires Fits(r, p)
    ensures |r'.table| == |r.table|
  {
    if !Accepts(r, p) then r
    else Reader(r.sequence, (r.expected + 1) % 256, r.received + p.count, r.waiting && !p.end,
                r.table[..r.received] + p.items + r.table[r.received + |p.items|..])
  }

  // The state right after the request.
  predicate JustRequested<T>(r: Reader<T>, sequence: byte) {
    r.sequence == sequence && r.expected == 0 && r.received == 0 && r.waiting
  }

  // A request starts over, under the next number.
  lemma RequestStarts<T>(r: Reader<T>)
    ensures JustRequested(Requested(r), if r.sequence == 255 then 0 else r.sequence + 1)
    ensures Requested(r).table == r.table
  {
  }

  // What happens to a reader over its life.
  datatype Happening<T> = Asking | Arriving(page: Page<T>)

  function Lived<T>(r: Reader<T>, es: seq<Happening<T>>): Reader<T> {
    if es == [] then r
    else
      var s := Lived(r, es[..|es| - 1]);
      match es[|es| - 1]
      case Asking => Requested(s)
      case Arriving(p) => if Fits(s, p) then Received(s, p) else s
  }

  function Requests<T>(es: seq<Happening<T>>): nat {
    if es == [] then 0 else Requests(es[..|es| - 1]) + if es[|es| - 1].Asking? then 1 else 0
  }

  // Request q of a reader has the number q modulo 256, whatever has come in
  // before: the requests of a connection are numbered as its answers are.
  lemma {:induction false} RequestsAreNumbered<T>(r: Reader<T>, es: seq<Happening<T>>)
    requires r.sequence == 0
    ensures Lived(r, es).sequence == Requests(es) % 256 && |Lived(r, es).table| == |r.table|
    ensures es != [] && es[|es| - 1].Asking? ==> JustRequested(Lived(r, es), Requests(es) % 256)
  {
    if es == [] {
    } else {
      RequestsAreNumbered(r, es[..|es| - 1]);
    }
  }

  class ListReader<T> {
    var sequence: byte
    var expected: byte
    var received: nat
    var waiting: bool
    const table: array<T>

    ghost function State(): Reader<T>
      reads this, table
    {
      Reader(sequence, expected, received, waiting, table[..])
    }

    constructor (table: array<T>)
      ensures State() == Reader(0, 0, 0, false, table[..]) && this.table == table
    {
      this.table := table;
      sequence, expected, received, waiting := 0, 0, 0, false;
    }

    // The caller asks: the number that goes out with the request.
    method Request() returns (number: byte)
      modifies this
      ensures State() == Requested(old(State())) && number == sequence
    {
      sequence := (sequence + 1) % 256;
      number := sequence;
      received := 0;
      expected := 0;
      waiting := true;
    }

    // A list packet arrives.
    method OnPage(p: Page<T>)
      requires Fits(State(), p)
      modifies this, table
      ensures State() == Received(old(State()), p)
    {
      if p.sequence != sequence { return; }
      if p.index != expected { return; }
      ghost var before := table[..];
      forall k | 0 <= k < |p.items| {
        table[received + k] := p.items[k];
      }
      assert table[..] == before[..received] + p.items + before[received + |p.items|..];
      received := received + p.count;
      expected := (expected + 1) % 256;
      if p.end {
        waiting := false;
      }
    }
  }

  // A run of arrivals; None when a copy would leave the table.
  function Arrived<T>(r: Reader<T>, ps: seq<Page<T>>): Option<Reader<T>> {
    if ps == [] then Some(r)
    else
      var s := Arrived(r, ps[..|ps| - 1]);
      var p := ps[|ps| - 1];
      if s.Some? && Fits(s.value, p) then Some(Received(s.value, p)) else None
  }

  // The pages of one answer, numbered so that no two numbers coincide.
  predicate IsAnswer<T>(pages: seq<Page<T>>, sequence: byte) {
    |pages| < 256 && pages != [] && Numbered(pages, pages[0].announced, sequence, 0)
  }

  // The state in which the client has taken the first n pages of the answer.
  ghost predicate Holds<T>(r: Reader<T>, pages: seq<Page<T>>, sequence: byte, n: nat) {
    && n <= |pages|
    && r.sequence == sequence && r.expected == n % 256
    && r.received == |Contents(pages[..n])| <= |r.table|
    && r.table[..r.received] == Contents(pages[..n])
    && (r.waiting <==> n < |pages|)
  }

  lemma {:induction false} PrefixOfContents<T>(pages: seq<Page<T>>, n: nat)
    requires n <= |pages|
    ensures Contents(pages[..n]) <= Contents(pages)
    decreases |pages| - n
  {
    if n < |pages| {
      PrefixOfContents(pages, n + 1);
      assert pages[..n + 1][..n] == pages[..n];
    } else {
      assert pages[..n] == pages;
    }
  }

  // Two pages that differ at most in the number of pages that they announce,
  // at which the client never looks.
  predicate Alike<T(==)>(p: Page<T>, q: Page<T>) {
    p.(announced := q.announced) == q
  }

  ghost predicate Among<T>(pages: seq<Page<T>>, p: Page<T>) {
    exists k :: 0 <= k < |pages| && Alike(p, pages[k])
  }

  // Of all pages of the answer and all pages with other sequence numbers,
  // only the next one is taken; it fits, and it extends what is held.
  lemma OneArrival<T>(r: Reader<T>, pages: seq<Page<T>>, sequence: byte, n: nat, p: Page<T>) returns (m: nat)
    requires IsAnswer(pages, sequence) && Holds(r, pages, sequence, n)
    requires |Contents(pages)| <= |r.table|
    requires p.sequence == sequence ==> Among(pages, p)
    ensures Fits(r, p) && Holds(Received(r, p), pages, sequence, m)
    ensures m == if n < |pages| && Alike(p, pages[n]) then n + 1 else n
  {
    hide Contents;
    m := n;
    if Accepts(r, p) {
      SamePage(pages, sequence, n, p);
      TakeNext(r, pages, sequence, n);
      m := n + 1;
    }
  }

  lemma SamePage<T>(pages: seq<Page<T>>, sequence: byte, n: nat, p: Page<T>)
    requires IsAnswer(pages, sequence) && n <= |pages|
    requires Among(pages, p) && p.index == n % 256
    ensures n < |pages| && Alike(p, pages[n])
  {
    var k :| 0 <= k < |pages| && Alike(p, pages[k]);
    assert pages[k].index == k % 256;
  }

  lemma TakeNext<T>(r: Reader<T>, pages: seq<Page<T>>, sequence: byte, n: nat)
    requires IsAnswer(pages, sequence) && n < |pages| && Holds(r, pages, sequence, n)
    requires |Contents(pages)| <= |r.table|
    ensures Fits(r, pages[n]) && Holds(Received(r, pages[n]), pages, sequence, n + 1)
  {
    hide Contents;
    var p := pages[n];
    ContentsGrow(pages, n);
    PrefixOfContents(pages, n + 1);
    CopyExtends(r.table, r.received, p.items);
  }

  lemma ContentsGrow<T>(pages: seq<Page<T>>, n: nat)
    requires n < |pages|
    ensures Contents(pages[..n + 1]) == Contents(pages[..n]) + pages[n].items
  {
    assert pages[..n + 1][..n] == pages[..n] && pages[..n + 1][n] == pages[n];
  }

  lemma CopyExtends<T>(table: seq<T>, received: nat, items: seq<T>)
    requires received + |items| <= |table|
    ensures (table[..received] + items + table[received + |items|..])[..received + |items|]
         == table[..received] + items
  {
  }

  lemma {:induction false} RunHolds<T>(r: Reader<T>, pages: seq<Page<T>>, sequence: byte, ps: seq<Page<T>>)
    returns (n: nat)
    requires IsAnswer(pages, sequence) && JustRequested(r, sequence)
    requires |Contents(pages)| <= |r.table|
    requires forall p | p in ps :: p.sequence == sequence ==> Among(pages, p)
    ensures Arrived(r, ps).Some? && |Arrived(r, ps).value.table| == |r.table|
    ensures Holds(Arrived(r, ps).value, pages, sequence, n)
    decreases |ps|
  {
    if ps == [] {
      n := 0;
      assert pages[..0] == [] && r.table[..0] == [];
    } else {
      var front, p := ps[..|ps| - 1], ps[|ps| - 1];
      assert p in ps && forall q | q in front :: q in ps;
      var m := RunHolds(r, pages, sequence, front);
      n := OneArrival(Arrived(r, front).value, pages, sequence, m, p);
    }
  }

  // A table of the server when it answers: its slots, and the server's own
  // count of them, which need not be exact.
  datatype Snapshot<+T> = Snapshot(slots: seq<Option<T>>, total: nat)

  // The server's answers over the life of a connection: to request q it sends
  // the slots that were used then.
  function Answer<T>(snapshots: seq<Snapshot<T>>, capacity: nat, q: nat): seq<Page<T>>
    requires 0 < capacity < 256 && q < |snapshots|
  {
    Response(snapshots[q].slots, capacity, snapshots[q].total, q % 256)
  }

  predicate NoWrap(q: nat, last: nat)
    requires q <= last
  {
    q == last || (last - q) % 256 != 0
  }

  lemma SameResidue(a: nat, b: nat)
    requires a <= b
    ensures a % 256 == b % 256 <==> (b - a) % 256 == 0
  {
    assert b == a + (b - a);
    if (b - a) % 256 == 0 {
      assert b == a + 256 * ((b - a) / 256);
    }
  }

  // Which pages carry the number of the last request.
  lemma SameNumberIff<T>(snapshots: seq<Snapshot<T>>, capacity: nat, q: nat, p: Page<T>)
    requires 0 < capacity < 256 && q < |snapshots| && p in Answer(snapshots, capacity, q)
    ensures p.sequence == (|snapshots| - 1) % 256 <==> (|snapshots| - 1 - q) % 256 == 0
  {
    ResponseShape(snapshots[q].slots, capacity, snapshots[q].total, q % 256);
    SameResidue(q, |snapshots| - 1);
  }

  // One list in two answers with the same number: the pages are alike.
  lemma {:induction false} AlikePages<T>(items: seq<T>, capacity: nat, a: byte, b: byte, sequence: byte, index: nat)
    requires 0 < capacity < 256
    ensures var ps, qs := Pages(items, capacity, a, sequence, index), Pages(items, capacity, b, sequence, index);
      |ps| == |qs| && forall k | 0 <= k < |ps| :: Alike(ps[k], qs[k])
    decreases |items|
  {
    if |items| < capacity {
    } else {
      AlikePages(items[capacity..], capacity, a, b, sequence, index + 1);
    }
  }

  // The answer to request q can be told from that to the last one, or brings
  // the same list.
  predicate Harmless<T(==)>(snapshots: seq<Snapshot<T>>, q: nat)
    requires q < |snapshots|
  {
    NoWrap(q, |snapshots| - 1) || Used(snapshots[q].slots) == Used(snapshots[|snapshots| - 1].slots)
  }

  lemma StaleIsHarmless<T>(snapshots: seq<Snapshot<T>>, capacity: nat, q: nat, p: Page<T>)
    requires 0 < capacity < 256 && q < |snapshots| && Harmless(snapshots, q) && p in Answer(snapshots, capacity, q)
    requires p.sequence == (|snapshots| - 1) % 256
    ensures Among(Answer(snapshots, capacity, |snapshots| - 1), p)
  {
    var last := |snapshots| - 1;
    SameNumberIff(snapshots, capacity, q, p);
    SameResidue(q, last);
    var was, list := snapshots[q], Used(snapshots[last].slots);
    var pages := Answer(snapshots, capacity, last);
    if q != last {
      AlikePages(list, capacity, (was.total / capacity + 1) % 256, (snapshots[last].total / capacity + 1) % 256,
                 last % 256, 0);
    }
    hide Pages;
    var k :| 0 <= k < |Answer(snapshots, capacity, q)| && p == Answer(snapshots, capacity, q)[k];
    assert Alike(p, pages[k]);
  }

  lemma AnswerShape<T>(snapshots: seq<Snapshot<T>>, capacity: nat)
    requires 0 < capacity < 256 && snapshots != []
    requires |snapshots[|snapshots| - 1].slots| / capacity < 255
    ensures var last := |snapshots| - 1;
      && IsAnswer(Answer(snapshots, capacity, last), last % 256)
      && Contents(Answer(snapshots, capacity, last)) == Used(snapshots[last].slots)
      && |Used(snapshots[last].slots)| <= |snapshots[last].slots|
  {
    var last := |snapshots| - 1;
    UsedBound(snapshots[last].slots);
    FewerPages(|Used(snapshots[last].slots)|, |snapshots[last].slots|, capacity);
    ResponseShape(snapshots[last].slots, capacity, snapshots[last].total, last % 256);
  }

  // No copy leaves the table, the client holds a prefix of the list in slot
  // order, and once the waiting caller is released it holds all of it.
  predicate Safe<T(==)>(r: Reader<T>, list: seq<T>, ps: seq<Page<T>>) {
    Arrived(r, ps).Some? &&
    var s := Arrived(r, ps).value;
    && s.received <= |s.table| == |r.table|
    && s.table[..s.received] <= list
    && (!s.waiting ==> s.table[..s.received] == list)
  }

  // A page of one of these requests' answers.
  ghost predicate FromAnswers<T>(snapshots: seq<Snapshot<T>>, capacity: nat, numbers: set<nat>, p: Page<T>)
    requires 0 < capacity < 256
  {
    exists q: nat :: q in numbers && q < |snapshots| && p in Answer(snapshots, capacity, q)
  }

  // Reassembly is safe, whatever packets are dropped, doubled, reordered or
  // left over from earlier requests, of which none that lies a multiple of
  // 256 back was answered with another list.
  lemma ReassemblySafe<T>(r: Reader<T>, snapshots: seq<Snapshot<T>>, capacity: nat, numbers: set<nat>,
                          ps: seq<Page<T>>)
    requires 0 < capacity < 256 && snapshots != [] && JustRequested(r, (|snapshots| - 1) % 256)
    requires |snapshots[|snapshots| - 1].slots| / capacity < 255
    requires |snapshots[|snapshots| - 1].slots| <= |r.table|
    requires forall q | q in numbers :: q < |snapshots| && Harmless(snapshots, q)
    requires forall p | p in ps :: FromAnswers(snapshots, capacity, numbers + {|snapshots| - 1}, p)
    ensures Safe(r, Used(snapshots[|snapshots| - 1].slots), ps)
  {
    var last := |snapshots| - 1;
    var pages := Answer(snapshots, capacity, last);
    AnswerShape(snapshots, capacity);
    forall p | p in ps && p.sequence == last % 256 ensures Among(pages, p) {
      var q: nat :| q in numbers + {last} && q < |snapshots| && p in Answer(snapshots, capacity, q);
      StaleIsHarmless(snapshots, capacity, q, p);
    }
    var n := RunHolds(r, pages, last % 256, ps);
    PrefixOfContents(pages, n);
    assert n == |pages| ==> pages[..n] == pages;
  }

  // And it can finish: if nothing is lost, the answer in order releases the
  // caller.
  lemma {:induction false} InOrderCompletes<T>(r: Reader<T>, pages: seq<Page<T>>, sequence: byte, n: nat)
    requires IsAnswer(pages, sequence) && JustRequested(r, sequence)
    requires |Contents(pages)| <= |r.table| && n <= |pages|
    ensures Arrived(r, pages[..n]).Some? && |Arrived(r, pages[..n]).value.table| == |r.table|
    ensures Holds(Arrived(r, pages[..n]).value, pages, sequence, n)
  {
    if n == 0 {
      assert pages[..0] == [] && r.table[..0] == [];
    } else {
      InOrderCompletes(r, pages, sequence, n - 1);
      TakeNext(Arrived(r, pages[..n - 1]).value, pages, sequence, n - 1);
      assert pages[..n][..n - 1] == pages[..n - 1];
    }
  }

  lemma FewerPages(a: nat, b: nat, capacity: nat)
    requires a <= b && 0 < capacity
    ensures a / capacity <= b / capacity
  {
    if a / capacity > b / capacity {
      MulMonotone(capacity, b / capacity + 1, a / capacity);
      assert false;
    }
  }

  // Safety whatever arrives of the answer and of answers to these earlier
  // requests.
  ghost predicate SafeFor<T(!new)>(snapshots: seq<Snapshot<T>>, capacity: nat, numbers: set<nat>, table: seq<T>)
    requires 0 < capacity < 256 && snapshots != []
  {
    var last := |snapshots| - 1;
    var list, inFlight := Used(snapshots[last].slots), numbers + {last};
    forall r: Reader<T>, ps: seq<Page<T>> |
      r.table == table && JustRequested(r, last % 256)
      && (forall p | p in ps :: FromAnswers(snapshots, capacity, inFlight, p))
      :: Safe(r, list, ps)
  }

  // The failing input: the answer to a request that lies a multiple of 256
  // back is taken for the current one, and releases the caller with the list
  // that it brings.
  lemma WrappedAnswerIsTaken<T>(r: Reader<T>, snapshots: seq<Snapshot<T>>, capacity: nat, q: nat)
    requires 0 < capacity < 256 && q < |snapshots| && JustRequested(r, (|snapshots| - 1) % 256)
    requires |snapshots[q].slots| / capacity < 255 && |snapshots[q].slots| <= |r.table|
    requires !Harmless(snapshots, q)
    ensures var pages, list := Answer(snapshots, capacity, q), Used(snapshots[q].slots);
      && Arrived(r, pages).Some? && !Arrived(r, pages).value.waiting
      && list <= Arrived(r, pages).value.table && Arrived(r, pages).value.received == |list|
      && !Safe(r, Used(snapshots[|snapshots| - 1].slots), pages)
  {
    var last := |snapshots| - 1;
    var pages := Answer(snapshots, capacity, q);
    SameResidue(q, last);
    UsedBound(snapshots[q].slots);
    FewerPages(|Used(snapshots[q].slots)|, |snapshots[q].slots|, capacity);
    ResponseShape(snapshots[q].slots, capacity, snapshots[q].total, q % 256);
    InOrderCompletes(r, pages, last % 256, |pages|);
    assert pages[..|pages|] == pages;
  }

  // The exact condition, for given tables at the requests: reassembly is safe
  // if and only if every request in flight that lies a multiple of 256 back
  // was answered with the same list.
  lemma SafeForIff<T(!new)>(snapshots: seq<Snapshot<T>>, capacity: nat, numbers: set<nat>, table: seq<T>)
    requires 0 < capacity < 256 && snapshots != []
    requires forall q | 0 <= q < |snapshots| ::
               |snapshots[q].slots| <= |table| && |snapshots[q].slots| / capacity < 255
    requires forall q | q in numbers :: q < |snapshots|
    ensures SafeFor(snapshots, capacity, numbers, table) <==> forall q | q in numbers :: Harmless(snapshots, q)
  {
    var last := |snapshots| - 1;
    hide Safe, Harmless, Answer, JustRequested;
    if forall q | q in numbers :: Harmless(snapshots, q) {
      forall r: Reader<T>, ps: seq<Page<T>> |
        r.table == table && JustRequested(r, last % 256)
        && (forall p | p in ps :: FromAnswers(snapshots, capacity, numbers + {last}, p))
        ensures Safe(r, Used(snapshots[last].slots), ps)
      {
        ReassemblySafe(r, snapshots, capacity, numbers, ps);
      }
    } else {
      var q :| q in numbers && !Harmless(snapshots, q);
      var r := Reader(last % 256, 0, 0, true, table);
      assert JustRequested(r, last % 256) by { ThisIsARequest(table, last % 256); }
      WrappedAnswerIsTaken(r, snapshots, capacity, q);
      var ps := Answer(snapshots, capacity, q);
      forall p | p in ps ensures FromAnswers(snapshots, capacity, numbers + {last}, p) {
        assert q in numbers + {last};
      }
    }
  }

  lemma ThisIsARequest<T>(table: seq<T>, sequence: byte)
    ensures JustRequested(Reader(sequence, 0, 0, true, table), sequence)
  {
  }

  // Safety over all contents of the lists and all counts that the server may
  // have of them.
  ghost predicate AlwaysSafe<T(!new)>(last: nat, capacity: nat, numbers: set<nat>, table: seq<T>)
    requires 0 < capacity < 256
  {
    forall snapshots: seq<Snapshot<T>> |
      |snapshots| == last + 1 && (forall q | 0 <= q <= last :: |snapshots[q].slots| <= |table|)
      :: SafeFor(snapshots, capacity, numbers, table)
  }

  // Lists that were empty at all requests but one.
  function OnceUsed<T>(x: T, last: nat, q: nat): (snapshots: seq<Snapshot<T>>)
    ensures |snapshots| == last + 1
  {
    seq(last + 1, k => if k == q then Snapshot([Some(x)], 1) else Snapshot([], 0))
  }

  // The exact bound on staleness: reassembly is safe for all contents of the
  // lists if and only if no answer in flight is to a request that lies a
  // multiple of 256 before the current one.
  lemma SafeIffNoWrap<T(!new)>(x: T, last: nat, capacity: nat, numbers: set<nat>, table: seq<T>)
    requires 0 < capacity < 256 && table != [] && |table| / capacity < 255
    requires forall q | q in numbers :: q <= last
    ensures AlwaysSafe(last, capacity, numbers, table) <==> forall q | q in numbers :: NoWrap(q, last)
  {
    hide SafeFor;
    if forall q | q in numbers :: NoWrap(q, last) {
      forall snapshots: seq<Snapshot<T>> |
        |snapshots| == last + 1 && (forall q | 0 <= q <= last :: |snapshots[q].slots| <= |table|)
        ensures SafeFor(snapshots, capacity, numbers, table)
      {
        forall q | 0 <= q <= last ensures |snapshots[q].slots| / capacity < 255 {
          FewerPages(|snapshots[q].slots|, |table|, capacity);
        }
        SafeForIff(snapshots, capacity, numbers, table);
      }
    } else {
      var q :| q in numbers && !NoWrap(q, last);
      var snapshots := OnceUsed(x, last, q);
      forall k | 0 <= k <= last ensures |snapshots[k].slots| <= |table| && |snapshots[k].slots| / capacity < 255 {
        FewerPages(|snapshots[k].slots|, |table|, capacity);
      }
      SafeForIff(snapshots, capacity, numbers, table);
      assert !Harmless(snapshots, q);
    }
  }
}
