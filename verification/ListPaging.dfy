// The server's pager for event, client and channel lists, and the client's
// reassembly of the pages.
module ListPaging {
  import opened Bytes
  import opened Framing

  // One list packet: five bytes of its identifier field, and its payload.
  datatype Page<+T> = Page(index: byte, announced: byte, count: byte, sequence: byte, end: bool, items: seq<T>)

  // The records of one kind that fit a payload.
  const EVENT_INFO_SIZE: nat := 90
  const CLIENT_INFO_SIZE: nat := 52
  const CHANNEL_INFO_SIZE: nat := 46
  const EVENTS_PER_PAGE: nat := MAX_PAYLOAD / EVENT_INFO_SIZE
  const CLIENTS_PER_PAGE: nat := MAX_PAYLOAD / CLIENT_INFO_SIZE
  const CHANNELS_PER_PAGE: nat := MAX_PAYLOAD / CHANNEL_INFO_SIZE

  // The used slots of a table, in slot order.
  function Used<T>(slots: seq<Option<T>>): seq<T> {
    if slots == [] then []
    else (if slots[0].Some? then [slots[0].value] else []) + Used(slots[1..])
  }

  function FullPage<T>(items: seq<T>, announced: byte, sequence: byte, index: nat): Page<T>
    requires |items| < 256
  {
    Page(index % 256, announced, |items|, sequence, false, items)
  }

  function LastPage<T>(items: seq<T>, announced: byte, sequence: byte, index: nat): Page<T>
    requires |items| < 256
  {
    Page(index % 256, announced, |items|, sequence, true, items)
  }

  // The pages of one list from `index` on: full ones, then a last one that is
  // not full and may be empty.
  function Pages<T>(items: seq<T>, capacity: nat, announced: byte, sequence: byte, index: nat): seq<Page<T>>
    requires 0 < capacity < 256
    decreases |items|
  {
    if |items| < capacity then [LastPage(items, announced, sequence, index)]
    else [FullPage(items[..capacity], announced, sequence, index)]
         + Pages(items[capacity..], capacity, announced, sequence, index + 1)
  }

  // A request is answered with the used slots, paged from 0; `total` is the
  // server's own count of them.
  function Response<T>(slots: seq<Option<T>>, capacity: nat, total: nat, sequence: byte): seq<Page<T>>
    requires 0 < capacity < 256
  {
    Pages(Used(slots), capacity, (total / capacity + 1) % 256, sequence, 0)
  }

  // The pager. The three copies in the server differ in the table they walk,
  // the record they fill and the capacity that follows from its size.
  method SendList<T>(slots: seq<Option<T>>, capacity: nat, total: nat, sequence: byte)
    returns (pages: seq<Page<T>>)
    requires 0 < capacity < 256
    ensures pages == Response(slots, capacity, total, sequence)
  {
    hide FullPage, LastPage;
    pages := [];
    var announced := (total / capacity + 1) % 256;
    ghost var whole := Pages(Used(slots), capacity, announced, sequence, 0);
    var index, batch := 0, [];
    var i := 0;
    assert slots[i..] == slots && batch + Used(slots) == Used(slots);
    while i < |slots|
      invariant 0 <= i <= |slots| && |batch| < capacity
      invariant whole == pages + Pages(batch + Used(slots[i..]), capacity, announced, sequence, index)
    {
      UsedStep(slots, i, batch);
      if slots[i].Some? {
        batch := batch + [slots[i].value];
        if |batch| >= capacity {
          FullStep(batch, Used(slots[i + 1..]), capacity, announced, sequence, index);
          ghost var more := Pages(Used(slots[i + 1..]), capacity, announced, sequence, index + 1);
          var page := FullPage(batch, announced, sequence, index);
          assert pages + ([page] + more) == pages + [page] + more;
          pages := pages + [page];
          index := index + 1;
          batch := [];
          assert batch + Used(slots[i + 1..]) == Used(slots[i + 1..]);
        }
      }
      i := i + 1;
    }
    assert batch + Used(slots[i..]) == batch;
    pages := pages + [LastPage(batch, announced, sequence, index)];
  }

  lemma UsedStep<T>(slots: seq<Option<T>>, i: nat, batch: seq<T>)
    requires i < |slots|
    ensures batch + Used(slots[i..])
         == (if slots[i].Some? then batch + [slots[i].value] else batch) + Used(slots[i + 1..])
  {
    assert slots[i..][1..] == slots[i + 1..];
  }

  lemma FullStep<T>(batch: seq<T>, more: seq<T>, capacity: nat, announced: byte, sequence: byte, index: nat)
    requires 0 < capacity == |batch| < 256
    ensures Pages(batch + more, capacity, announced, sequence, index)
         == [FullPage(batch, announced, sequence, index)] + Pages(more, capacity, announced, sequence, index + 1)
  {
    assert (batch + more)[..capacity] == batch && (batch + more)[capacity..] == more;
  }

  function Contents<T>(pages: seq<Page<T>>): seq<T> {
    if pages == [] then [] else Contents(pages[..|pages| - 1]) + pages[|pages| - 1].items
  }

  lemma {:induction false} ContentsFromFront<T>(pages: seq<Page<T>>)
    requires pages != []
    ensures Contents(pages) == pages[0].items + Contents(pages[1..])
    decreases |pages|
  {
    var n := |pages| - 1;
    if n > 0 {
      var front, tail := pages[..n], pages[1..];
      ContentsFromFront(front);
      assert tail[..n - 1] == front[1..] && tail[n - 1] == pages[n];
      assert Contents(tail) == Contents(front[1..]) + pages[n].items;
      hide Contents;
      assert pages[0].items + Contents(front[1..]) + pages[n].items
          == pages[0].items + (Contents(front[1..]) + pages[n].items);
    } else {
      assert pages[1..] == [] && pages[..0] == [];
    }
  }

  lemma {:induction false} PagesCount<T>(items: seq<T>, capacity: nat, announced: byte, sequence: byte, index: nat)
    requires 0 < capacity < 256
    ensures |Pages(items, capacity, announced, sequence, index)| == |items| / capacity + 1
    decreases |items|
  {
    if |items| < capacity {
    } else {
      PagesCount(items[capacity..], capacity, announced, sequence, index + 1);
      DivStep(|items|, capacity);
    }
  }

  lemma DivUnique(n: nat, c: nat, q: nat)
    requires c > 0 && c * q <= n < c * q + c
    ensures n / c == q
  {
    var p := n / c;
    assert n == c * p + n % c;
    if p < q {
      MulStep(c, p, q);
      assert false;
    } else if p > q {
      MulStep(c, q, p);
      assert false;
    }
  }

  lemma MulStep(c: nat, x: nat, y: nat)
    requires x < y
    ensures c * x + c <= c * y
  {
    MulMonotone(c, x + 1, y);
  }

  lemma MulMonotone(c: nat, x: nat, y: nat)
    requires x <= y
    ensures c * x <= c * y
  {
  }

  lemma DivStep(n: nat, c: nat)
    requires 0 < c <= n
    ensures n / c == (n - c) / c + 1
  {
    var q := (n - c) / c;
    assert n - c == c * q + (n - c) % c;
    assert c * (q + 1) == c * q + c;
    DivUnique(n, c, q + 1);
  }

  lemma PagesStep<T>(items: seq<T>, capacity: nat, announced: byte, sequence: byte, index: nat)
    requires 0 < capacity < 256
    ensures |items| < capacity ==> Contents(Pages(items, capacity, announced, sequence, index)) == items
    ensures |items| >= capacity ==>
      Contents(Pages(items, capacity, announced, sequence, index))
      == items[..capacity] + Contents(Pages(items[capacity..], capacity, announced, sequence, index + 1))
  {
    if |items| < capacity {
      var last := LastPage(items, announced, sequence, index);
      assert Pages(items, capacity, announced, sequence, index) == [last] + [];
      hide Pages, LastPage;
      ContentsOfCons(last, []);
      assert last.items + [] == last.items;
    } else {
      var first := FullPage(items[..capacity], announced, sequence, index);
      var rest := Pages(items[capacity..], capacity, announced, sequence, index + 1);
      assert Pages(items, capacity, announced, sequence, index) == [first] + rest;
      hide Pages, Contents;
      ContentsOfCons(first, rest);
    }
  }

  lemma {:induction false} PagesContents<T>(items: seq<T>, capacity: nat, announced: byte, sequence: byte, index: nat)
    requires 0 < capacity < 256
    ensures Contents(Pages(items, capacity, announced, sequence, index)) == items
    decreases |items|
  {
    hide Pages, Contents;
    PagesStep(items, capacity, announced, sequence, index);
    if |items| < capacity {
    } else {
      PagesContents(items[capacity..], capacity, announced, sequence, index + 1);
      assert items[..capacity] + items[capacity..] == items;
    }
  }

  lemma ContentsOfCons<T>(first: Page<T>, rest: seq<Page<T>>)
    ensures Contents([first] + rest) == first.items + Contents(rest)
  {
    var pages := [first] + rest;
    ContentsFromFront(pages);
    hide Contents;
    assert pages[1..] == rest;
  }

  // Numbered in order from `index`, with the number of its items on each page
  // and only the last page marked.
  predicate Numbered<T>(pages: seq<Page<T>>, announced: byte, sequence: byte, index: nat) {
    && pages != []
    && forall k | 0 <= k < |pages| ::
        && pages[k].index == (index + k) % 256
        && pages[k].announced == announced && pages[k].sequence == sequence
        && pages[k].count == |pages[k].items|
        && (pages[k].end <==> k == |pages| - 1)
  }

  lemma {:induction false} PagesNumbered<T>(items: seq<T>, capacity: nat, announced: byte, sequence: byte, index: nat)
    requires 0 < capacity < 256
    ensures Numbered(Pages(items, capacity, announced, sequence, index), announced, sequence, index)
    decreases |items|
  {
    if |items| < capacity {
    } else {
      var rest := Pages(items[capacity..], capacity, announced, sequence, index + 1);
      PagesNumbered(items[capacity..], capacity, announced, sequence, index + 1);
      NumberedCons(FullPage(items[..capacity], announced, sequence, index), rest, announced, sequence, index);
    }
  }

  lemma NumberedCons<T>(p: Page<T>, rest: seq<Page<T>>, announced: byte, sequence: byte, index: nat)
    requires Numbered(rest, announced, sequence, index + 1)
    requires |p.items| < 256 && p == FullPage(p.items, announced, sequence, index)
    ensures Numbered([p] + rest, announced, sequence, index)
  {
    var pages := [p] + rest;
    forall k | 1 <= k < |pages|
      ensures pages[k] == rest[k - 1] && pages[k].index == (index + k) % 256
    {
      assert rest[k - 1].index == (index + 1 + (k - 1)) % 256;
    }
  }

  // The shape of a response: one page more than the full ones, numbered in
  // order, only the last one marked, together exactly the used slots.
  lemma ResponseShape<T>(slots: seq<Option<T>>, capacity: nat, total: nat, sequence: byte)
    requires 0 < capacity < 256
    ensures var pages := Response(slots, capacity, total, sequence);
      && |pages| == |Used(slots)| / capacity + 1
      && Contents(pages) == Used(slots)
      && Numbered(pages, (total / capacity + 1) % 256, sequence, 0)
  {
    var announced := (total / capacity + 1) % 256;
    PagesCount(Used(slots), capacity, announced, sequence, 0);
    PagesContents(Used(slots), capacity, announced, sequence, 0);
    PagesNumbered(Used(slots), capacity, announced, sequence, 0);
  }

  // The number of pages that each of them announces is the number of pages,
  // if the server's count is the number of used slots.
  lemma AnnouncedPages<T>(slots: seq<Option<T>>, capacity: nat, total: nat, sequence: byte)
    requires 0 < capacity < 256
    requires total == |Used(slots)| && total / capacity + 1 < 256
    ensures var pages := Response(slots, capacity, total, sequence);
      && |pages| == total / capacity + 1
      && (forall k | 0 <= k < |pages| :: pages[k].announced == |pages| && pages[k].index == k)
      && Contents(pages) == Used(slots)
  {
    ResponseShape(slots, capacity, total, sequence);
  }

  lemma {:induction false} UsedBound<T>(slots: seq<Option<T>>)
    ensures |Used(slots)| <= |slots|
  {
    if slots == [] {
    } else {
      UsedBound(slots[1..]);
    }
  }
}
