/** Sorting by a strict total order. */
module Sorting {
  /** Lexicographic order of code units. */
  predicate LexLess(a: seq<int>, b: seq<int>) {
    b != [] && (a == [] || a[0] < b[0] || (a[0] == b[0] && LexLess(a[1..], b[1..])))
  }

  /** Up to some place both are equal, and there the first ends or has the smaller unit. */
  lemma {:induction false} LexLessIs(a: seq<int>, b: seq<int>)
    ensures LexLess(a, b) <==> exists k :: 0 <= k <= |a| && k < |b| && a[..k] == b[..k] && (k == |a| || a[k] < b[k])
  {
    if a == [] || b == [] {
      assert b != [] ==> a[..0] == b[..0];
    } else if a[0] != b[0] {
      assert a[..0] == b[..0];
      forall k | 0 < k <= |a| && k < |b| ensures a[..k] != b[..k] {
        assert a[..k][0] == a[0];
        assert b[..k][0] == b[0];
      }
    } else {
      LexLessIs(a[1..], b[1..]);
      if LexLess(a, b) {
        var k :| 0 <= k <= |a[1..]| && k < |b[1..]| && a[1..][..k] == b[1..][..k] && (k == |a[1..]| || a[1..][k] < b[1..][k]);
        assert a[..k + 1] == [a[0]] + a[1..][..k] && b[..k + 1] == [b[0]] + b[1..][..k];
      }
      if k :| 0 <= k <= |a| && k < |b| && a[..k] == b[..k] && (k == |a| || a[k] < b[k]) {
        assert k > 0;
        assert a[1..][..k - 1] == a[..k][1..] && b[1..][..k - 1] == b[..k][1..];
      }
    }
  }

  lemma {:induction false} LexTotal(a: seq<int>, b: seq<int>)
    ensures a == b || LexLess(a, b) || LexLess(b, a)
    ensures !(LexLess(a, b) && LexLess(b, a)) && !LexLess(a, a)
  {
    if a != [] && b != [] {
      LexTotal(a[1..], b[1..]);
      LexTotal(a[1..], a[1..]);
      assert a[0] == b[0] && a[1..] == b[1..] ==> a == [a[0]] + a[1..] == b;
    } else if a != [] {
      LexTotal(a[1..], a[1..]);
    }
  }

  lemma {:induction false} LexTransitive(a: seq<int>, b: seq<int>, c: seq<int>)
    requires LexLess(a, b) && LexLess(b, c)
    ensures LexLess(a, c)
  {
    if a != [] && a[0] == b[0] == c[0] { LexTransitive(a[1..], b[1..], c[1..]); }
  }

  ghost predicate StrictOrder<T(!new)>(before: (T, T) -> bool) {
    && (forall a, b :: a == b || before(a, b) || before(b, a))
    && (forall a, b :: !(before(a, b) && before(b, a)))
    && (forall a, b, c :: before(a, b) && before(b, c) ==> before(a, c))
  }

  function Insert<T>(x: T, sorted: seq<T>, before: (T, T) -> bool): seq<T> {
    if sorted == [] then [x]
    else if before(sorted[0], x) then [sorted[0]] + Insert(x, sorted[1..], before)
    else [x] + sorted
  }

  function Sort<T>(items: seq<T>, before: (T, T) -> bool): seq<T> {
    if items == [] then [] else Insert(items[0], Sort(items[1..], before), before)
  }

  ghost predicate Ordered<T>(items: seq<T>, before: (T, T) -> bool) {
    forall i, j :: 0 <= i < j < |items| ==> before(items[i], items[j])
  }

  ghost predicate NoDuplicates<T>(items: seq<T>) {
    forall i, j :: 0 <= i < j < |items| ==> items[i] != items[j]
  }

  lemma {:induction false} InsertAdds<T>(x: T, sorted: seq<T>, before: (T, T) -> bool)
    ensures multiset(Insert(x, sorted, before)) == multiset(sorted) + multiset{x}
  {
    if sorted != [] {
      assert sorted == [sorted[0]] + sorted[1..];
      InsertAdds(x, sorted[1..], before);
    }
  }

  lemma {:induction false} InsertOrders<T(!new)>(x: T, sorted: seq<T>, before: (T, T) -> bool)
    requires StrictOrder(before) && Ordered(sorted, before) && x !in sorted
    ensures Ordered(Insert(x, sorted, before), before)
  {
    if sorted != [] {
      if before(sorted[0], x) {
        InsertOrders(x, sorted[1..], before);
        var rest := Insert(x, sorted[1..], before);
        InsertAdds(x, sorted[1..], before);
        forall j | 0 <= j < |rest| ensures before(sorted[0], rest[j]) {
          assert rest[j] in multiset(rest);
          assert rest[j] == x || rest[j] in sorted[1..];
        }
      } else {
        forall j | 0 <= j < |sorted| ensures before(x, sorted[j]) {
          assert before(x, sorted[0]);
          assert j > 0 ==> before(sorted[0], sorted[j]);
        }
      }
    }
  }

  lemma {:induction false} SortPermutes<T>(items: seq<T>, before: (T, T) -> bool)
    ensures multiset(Sort(items, before)) == multiset(items)
  {
    if items != [] {
      assert items == [items[0]] + items[1..];
      SortPermutes(items[1..], before);
      InsertAdds(items[0], Sort(items[1..], before), before);
    }
  }

  lemma {:induction false} SortOrders<T(!new)>(items: seq<T>, before: (T, T) -> bool)
    requires StrictOrder(before) && NoDuplicates(items)
    ensures Ordered(Sort(items, before), before)
  {
    if items != [] {
      SortOrders(items[1..], before);
      SortPermutes(items[1..], before);
      var x, rest := items[0], Sort(items[1..], before);
      assert x in multiset(rest) <==> x in multiset(items[1..]);
      InsertOrders(x, rest, before);
    }
  }

  lemma Tail<T(!new)>(items: seq<T>, before: (T, T) -> bool)
    requires items != [] && Ordered(items, before)
    ensures Ordered(items[1..], before) && multiset(items[1..]) == multiset(items) - multiset{items[0]} && items == [items[0]] + items[1..]
  {
    assert items == [items[0]] + items[1..];
  }

  /** There is only one way to order the same items. */
  lemma {:induction false} OrderIsUnique<T(!new)>(first: seq<T>, second: seq<T>, before: (T, T) -> bool)
    requires StrictOrder(before) && Ordered(first, before) && Ordered(second, before) && multiset(first) == multiset(second)
    ensures first == second
  {
    hide StrictOrder, Ordered;
    SameLength(first, second);
    if first != [] {
      HeadIsSame(first, second, before);
      Tail(first, before);
      Tail(second, before);
      OrderIsUnique(first[1..], second[1..], before);
    }
  }

  lemma SameLength<T>(first: seq<T>, second: seq<T>)
    requires multiset(first) == multiset(second)
    ensures |first| == |second|
  {
    assert |multiset(first)| == |first| && |multiset(second)| == |second|;
  }

  lemma HeadIsSame<T(!new)>(first: seq<T>, second: seq<T>, before: (T, T) -> bool)
    requires StrictOrder(before) && Ordered(first, before) && Ordered(second, before) && multiset(first) == multiset(second)
    requires first != [] && second != []
    ensures first[0] == second[0]
  {
    assert first[0] in multiset(second) && second[0] in multiset(first);
    var i :| 0 <= i < |second| && second[i] == first[0];
    var j :| 0 <= j < |first| && first[j] == second[0];
  }

  lemma Multiplicity<T>(items: seq<T>)
    requires NoDuplicates(items)
    ensures forall x :: multiset(items)[x] == if x in items then 1 else 0
  {
    if items != [] {
      var rest := items[1..];
      assert items == [items[0]] + rest;
      Multiplicity(rest);
      assert multiset(items) == multiset(rest) + multiset{items[0]};
    }
  }

  /** Sorting depends only on which items there are. */
  lemma SortOfSame<T(!new)>(first: seq<T>, second: seq<T>, before: (T, T) -> bool)
    requires StrictOrder(before) && NoDuplicates(first) && NoDuplicates(second) && forall x :: x in first <==> x in second
    ensures Sort(first, before) == Sort(second, before)
  {
    Multiplicity(first);
    Multiplicity(second);
    assert multiset(first) == multiset(second);
    SortPermutes(first, before);
    SortPermutes(second, before);
    SortOrders(first, before);
    SortOrders(second, before);
    OrderIsUnique(Sort(first, before), Sort(second, before), before);
  }
}
