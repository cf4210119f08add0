/** The stable sort by a key (`sort_by_key` of the standard library), as an insertion sort: both
    patch engines sort what they replace by where it starts. */
module Sorting {
  function Insert<T>(s: seq<T>, x: T, key: T -> int): (r: seq<T>)
    ensures multiset(r) == multiset(s + [x])
  {
    if s == [] || key(s[|s| - 1]) <= key(x) then s + [x]
    else
      assert s == s[..|s| - 1] + [s[|s| - 1]];
      Insert(s[..|s| - 1], x, key) + [s[|s| - 1]]
  }

  function StableSort<T>(s: seq<T>, key: T -> int): (r: seq<T>)
    ensures multiset(r) == multiset(s)
  {
    if s == [] then []
    else
      assert s == s[..|s| - 1] + [s[|s| - 1]];
      Insert(StableSort(s[..|s| - 1], key), s[|s| - 1], key)
  }

  lemma SortAppend<T>(front: seq<T>, x: T, key: T -> int)
    ensures StableSort(front + [x], key) == Insert(StableSort(front, key), x, key)
  {
    assert (front + [x])[..|front|] == front;
  }

  ghost predicate Sorted<T>(s: seq<T>, key: T -> int) {
    forall i, j :: 0 <= i < j < |s| ==> key(s[i]) <= key(s[j])
  }

  lemma SortedPush<T>(s: seq<T>, last: T, key: T -> int)
    requires Sorted(s, key) && forall k :: 0 <= k < |s| ==> key(s[k]) <= key(last)
    ensures Sorted(s + [last], key)
  {
  }

  lemma {:induction false} InsertSorted<T>(s: seq<T>, x: T, key: T -> int)
    requires Sorted(s, key)
    ensures Sorted(Insert(s, x, key), key)
  {
    if s != [] && key(s[|s| - 1]) > key(x) {
      var front, last := s[..|s| - 1], s[|s| - 1];
      InsertSorted(front, x, key);
      InsertBelow(front, x, key(last), key);
      SortedPush(Insert(front, x, key), last, key);
    }
  }

  lemma InsertBelow<T>(s: seq<T>, x: T, bound: int, key: T -> int)
    requires key(x) <= bound && forall k :: 0 <= k < |s| ==> key(s[k]) <= bound
    ensures forall k :: 0 <= k < |Insert(s, x, key)| ==> key(Insert(s, x, key)[k]) <= bound
  {
    SameMembers(Insert(s, x, key), s + [x]);
  }

  lemma {:induction false} SortSorts<T>(s: seq<T>, key: T -> int)
    ensures Sorted(StableSort(s, key), key)
  {
    if s != [] {
      SortSorts(s[..|s| - 1], key);
      InsertSorted(StableSort(s[..|s| - 1], key), s[|s| - 1], key);
    }
  }

  // Stability: behind what is not greater, before what is.
  lemma {:induction false} InsertBetween<T>(a: seq<T>, b: seq<T>, x: T, key: T -> int)
    requires a == [] || key(a[|a| - 1]) <= key(x)
    requires forall i :: 0 <= i < |b| ==> key(x) < key(b[i])
    ensures Insert(a + b, x, key) == a + [x] + b
  {
    if b == [] {
      assert a + b == a;
    } else {
      var front, last := b[..|b| - 1], b[|b| - 1];
      LastApart(a, front, last, b);
      InsertBetween(a, front, x, key);
      assert a + [x] + front + [last] == a + [x] + b;
    }
  }

  lemma LastApart<T>(a: seq<T>, front: seq<T>, last: T, b: seq<T>)
    requires b == front + [last]
    ensures (a + b)[..|a + b| - 1] == a + front && (a + b)[|a + b| - 1] == last
  {
  }

  lemma SameMembers<T>(a: seq<T>, b: seq<T>)
    requires multiset(a) == multiset(b)
    ensures forall k :: 0 <= k < |a| ==> a[k] in b
  {
    forall k | 0 <= k < |a|
      ensures a[k] in b
    {
      assert a[k] in multiset(a);
    }
  }
}
