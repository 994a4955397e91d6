/** The order in which the tool replays one order's rows. */
module Entries {
  import opened Models

  /** `rank` is 0 for the gateway, 1 for the merchant; `index` is the place in its file. */
  datatype Item = Item(rank: nat, index: nat, time: Option<int>, event: Event)

  predicate AllTimed(items: seq<Item>) {
    forall i | 0 <= i < |items| :: items[i].time.Some?
  }

  function When(item: Item): int {
    if item.time.Some? then item.time.value else 0
  }

  predicate FiledBefore(a: Item, b: Item) {
    a.rank < b.rank || (a.rank == b.rank && a.index < b.index)
  }

  /** The sort key: time, then file, then place; without times, file, then place. */
  predicate KeyBefore(a: Item, b: Item, timed: bool) {
    if timed && When(a) != When(b) then When(a) < When(b) else FiledBefore(a, b)
  }

  predicate InFileOrder(items: seq<Item>) {
    forall i, j | 0 <= i < j < |items| :: FiledBefore(items[i], items[j])
  }

  predicate SortedByKey(items: seq<Item>, timed: bool) {
    forall i, j | 0 <= i < j < |items| :: KeyBefore(items[i], items[j], timed)
  }

  // ------------------------------------------------------------------
  // A stable sort by time, which never looks at file or place
  // ------------------------------------------------------------------

  /** After everything that is no later. */
  function Insert(items: seq<Item>, x: Item): seq<Item> {
    if items == [] then [x]
    else
      var n := |items| - 1;
      if When(items[n]) <= When(x) then items + [x] else Insert(items[..n], x) + [items[n]]
  }

  function ByTime(items: seq<Item>): seq<Item> {
    if items == [] then []
    else Insert(ByTime(items[..|items| - 1]), items[|items| - 1])
  }

  function Arranged(items: seq<Item>): seq<Item> {
    if AllTimed(items) then ByTime(items) else items
  }

  lemma KeyIsTransitive(a: Item, b: Item, c: Item, timed: bool)
    requires KeyBefore(a, b, timed) && KeyBefore(b, c, timed)
    ensures KeyBefore(a, c, timed)
  {
  }

  lemma SortedSplice(left: seq<Item>, x: Item, right: seq<Item>, timed: bool)
    requires SortedByKey(left + right, timed)
    requires forall i | 0 <= i < |left| :: KeyBefore(left[i], x, timed)
    requires forall i | 0 <= i < |right| :: KeyBefore(x, right[i], timed)
    ensures SortedByKey(left + [x] + right, timed)
    ensures multiset(left + [x] + right) == multiset(left + right) + multiset{x}
  {
    hide KeyBefore;
    var before, r := left + right, left + [x] + right;
    forall i, j | 0 <= i < j < |r| ensures KeyBefore(r[i], r[j], timed) {
      if i != |left| && j != |left| {
        var i', j' := if i < |left| then i else i - 1, if j < |left| then j else j - 1;
        assert r[i] == before[i'] && r[j] == before[j'];
      }
    }
  }

  lemma AllBefore(items: seq<Item>, x: Item, timed: bool)
    requires SortedByKey(items, timed)
    requires items != [] ==> KeyBefore(items[|items| - 1], x, timed)
    ensures forall i | 0 <= i < |items| :: KeyBefore(items[i], x, timed)
  {
    forall i | 0 <= i < |items| ensures KeyBefore(items[i], x, timed) {
      if i < |items| - 1 { KeyIsTransitive(items[i], items[|items| - 1], x, timed); }
    }
  }

  lemma {:induction false} InsertKeepsAll(items: seq<Item>, x: Item)
    ensures multiset(Insert(items, x)) == multiset(items) + multiset{x}
  {
    hide When;
    if items != [] {
      InsertKeepsAll(items[..|items| - 1], x);
      assert items == items[..|items| - 1] + [items[|items| - 1]];
    }
  }

  lemma PrefixBeforeLast(items: seq<Item>)
    requires SortedByKey(items, true) && items != []
    ensures var n := |items| - 1;
            SortedByKey(items[..n], true) && forall y | y in items[..n] :: KeyBefore(y, items[n], true)
  {
    hide KeyBefore;
  }

  lemma {:induction false} InsertSorts(items: seq<Item>, x: Item)
    requires SortedByKey(items, true)
    requires forall y | y in items :: FiledBefore(y, x)
    ensures SortedByKey(Insert(items, x), true)
  {
    if items == [] {
    } else if When(items[|items| - 1]) <= When(x) {
      AllBefore(items, x, true);
      SortedSplice(items, x, [], true);
      assert items + [] == items && items + [x] + [] == items + [x];
    } else {
      var n := |items| - 1;
      assert KeyBefore(x, items[n], true);
      PrefixBeforeLast(items);
      InsertSorts(items[..n], x);
      InsertKeepsAll(items[..n], x);
      hide KeyBefore, FiledBefore, SortedByKey;
      AppendLast(Insert(items[..n], x), items[..n], x, items[n]);
    }
  }

  lemma AppendLast(front: seq<Item>, rest: seq<Item>, x: Item, last: Item)
    requires SortedByKey(front, true) && multiset(front) == multiset(rest) + multiset{x}
    requires forall y | y in rest :: KeyBefore(y, last, true)
    requires KeyBefore(x, last, true)
    ensures SortedByKey(front + [last], true)
  {
    hide KeyBefore;
    forall i | 0 <= i < |front| ensures KeyBefore(front[i], last, true) {
      assert front[i] in multiset(rest) + multiset{x} by {
        assert front[i] in multiset(front);
      }
    }
    SortedSplice(front, last, [], true);
    assert front + [] == front && front + [last] + [] == front + [last];
  }

  lemma {:induction false} ByTimeSorts(items: seq<Item>)
    requires InFileOrder(items)
    ensures SortedByKey(ByTime(items), true)
    ensures multiset(ByTime(items)) == multiset(items)
  {
    if items != [] {
      var n := |items| - 1;
      assert items == items[..n] + [items[n]];
      ByTimeSorts(items[..n]);
      var front := ByTime(items[..n]);
      forall y | y in front ensures FiledBefore(y, items[n]) {
        assert y in multiset(front);
      }
      InsertSorts(front, items[n]);
      InsertKeepsAll(front, items[n]);
    }
  }

  lemma KeyIsStrictOrder(a: Item, b: Item, timed: bool)
    ensures !(KeyBefore(a, b, timed) && KeyBefore(b, a, timed))
  {
  }

  /** A set of rows has one sorted arrangement. */
  lemma {:induction false} SortedIsUnique(a: seq<Item>, b: seq<Item>, timed: bool)
    requires multiset(a) == multiset(b)
    requires SortedByKey(a, timed) && SortedByKey(b, timed)
    ensures a == b
  {
    assert |a| == |multiset(a)| == |b|;
    if a != [] {
      FirstAgrees(a, b, timed);
      assert a == [a[0]] + a[1..] && b == [b[0]] + b[1..];
      assert multiset(a[1..]) == multiset(a) - multiset{a[0]} == multiset(b[1..]);
      SortedIsUnique(a[1..], b[1..], timed);
    }
  }

  lemma FirstAgrees(a: seq<Item>, b: seq<Item>, timed: bool)
    requires multiset(a) == multiset(b) && a != [] && b != []
    requires SortedByKey(a, timed) && SortedByKey(b, timed)
    ensures a[0] == b[0]
  {
    assert a[0] in multiset(b) && b[0] in multiset(a);
    var i :| 0 <= i < |b| && b[i] == a[0];
    var j :| 0 <= j < |a| && a[j] == b[0];
    if i != 0 && j != 0 {
      KeyIsStrictOrder(a[0], b[0], timed);
    }
  }

  /** Sorting by the key is the stable sort by time, or the file order. */
  lemma ArrangedIsTheSort(items: seq<Item>, sorted: seq<Item>)
    requires InFileOrder(items)
    requires multiset(sorted) == multiset(items) && SortedByKey(sorted, AllTimed(items))
    ensures sorted == Arranged(items)
  {
    ByTimeSorts(items);
    SortedIsUnique(sorted, Arranged(items), AllTimed(items));
  }

  // ------------------------------------------------------------------
  // The place in the file does not matter
  // ------------------------------------------------------------------

  predicate SameRow(a: Item, b: Item) {
    a.time == b.time && a.event == b.event
  }

  predicate SameRows(a: seq<Item>, b: seq<Item>) {
    |a| == |b| && forall i | 0 <= i < |a| :: SameRow(a[i], b[i])
  }

  function Events(items: seq<Item>): (events: seq<Event>)
    ensures |events| == |items|
    ensures forall i | 0 <= i < |items| :: events[i] == items[i].event
  {
    seq(|items|, i requires 0 <= i < |items| => items[i].event)
  }

  lemma {:induction false} InsertSameRows(a: seq<Item>, b: seq<Item>, x: Item, y: Item)
    requires SameRows(a, b) && SameRow(x, y)
    ensures SameRows(Insert(a, x), Insert(b, y))
  {
    if a != [] {
      InsertSameRows(a[..|a| - 1], b[..|b| - 1], x, y);
    }
  }

  lemma {:induction false} ByTimeSameRows(a: seq<Item>, b: seq<Item>)
    requires SameRows(a, b)
    ensures SameRows(ByTime(a), ByTime(b))
  {
    if a != [] {
      var n := |a| - 1;
      ByTimeSameRows(a[..n], b[..n]);
      InsertSameRows(ByTime(a[..n]), ByTime(b[..n]), a[n], b[n]);
    }
  }

  lemma ArrangedSameRows(a: seq<Item>, b: seq<Item>)
    requires SameRows(a, b)
    ensures Events(Arranged(a)) == Events(Arranged(b))
  {
    ByTimeSameRows(a, b);
    assert AllTimed(a) <==> AllTimed(b) by {
      if AllTimed(a) { forall i | 0 <= i < |b| ensures b[i].time.Some? { assert SameRow(a[i], b[i]); } }
      if AllTimed(b) { forall i | 0 <= i < |a| ensures a[i].time.Some? { assert SameRow(a[i], b[i]); } }
    }
    assert SameRows(Arranged(a), Arranged(b));
  }

  // ------------------------------------------------------------------
  // sorted(items, key=...)
  // ------------------------------------------------------------------

  method SortByKey(items: seq<Item>, timed: bool) returns (sorted: seq<Item>)
    requires InFileOrder(items)
    ensures multiset(sorted) == multiset(items)
    ensures SortedByKey(sorted, timed)
  {
    sorted := [];
    var i := 0;
    while i < |items|
      invariant 0 <= i <= |items|
      invariant multiset(sorted) == multiset(items[..i])
      invariant SortedByKey(sorted, timed)
    {
      ghost var done := sorted;
      assert forall y | y in sorted :: FiledBefore(y, items[i]) by {
        forall y | y in sorted ensures FiledBefore(y, items[i]) {
          assert y in multiset(items[..i]);
        }
      }
      sorted := Place(sorted, items[i], timed);
      assert items[..i + 1] == items[..i] + [items[i]];
      i := i + 1;
    }
    assert items[..i] == items;
  }

  method Place(sorted: seq<Item>, x: Item, timed: bool) returns (r: seq<Item>)
    requires SortedByKey(sorted, timed)
    requires forall y | y in sorted :: FiledBefore(y, x)
    ensures multiset(r) == multiset(sorted) + multiset{x}
    ensures SortedByKey(r, timed)
  {
    var k := |sorted|;
    while k > 0 && !KeyBefore(sorted[k - 1], x, timed)
      invariant 0 <= k <= |sorted|
      invariant forall i | k <= i < |sorted| :: KeyBefore(x, sorted[i], timed)
    {
      assert sorted[k - 1] in sorted;
      k := k - 1;
    }
    r := sorted[..k] + [x] + sorted[k..];
    assert sorted == sorted[..k] + sorted[k..];
    AllBefore(sorted[..k], x, timed);
    SortedSplice(sorted[..k], x, sorted[k..], timed);
  }
}
