/** Stable sorting by an integer key, as `sorted` orders a list. */
module Sorting {
  import opened Grouping

  ghost predicate OrderedBy<T>(s: seq<T>, key: T -> int) {
    forall i, j :: 0 <= i < j < |s| ==> key(s[i]) <= key(s[j])
  }

  /** x goes behind everything that is not greater. */
  function Insert<T>(s: seq<T>, x: T, key: T -> int): (r: seq<T>)
    ensures |r| == |s| + 1
  {
    if s == [] then [x]
    else if key(s[|s| - 1]) <= key(x) then s + [x]
    else Insert(s[..|s| - 1], x, key) + [s[|s| - 1]]
  }

  function Sort<T>(s: seq<T>, key: T -> int): (r: seq<T>)
    ensures |r| == |s|
  {
    if s == [] then [] else Insert(Sort(s[..|s| - 1], key), s[|s| - 1], key)
  }

  lemma {:induction false} InsertAdds<T>(s: seq<T>, x: T, key: T -> int)
    ensures multiset(Insert(s, x, key)) == multiset(s) + multiset{x}
  {
    if s != [] {
      var init, last := s[..|s| - 1], s[|s| - 1];
      assert s == init + [last];
      if key(last) > key(x) {
        InsertAdds(init, x, key);
      }
    }
  }

  lemma {:induction false} SortPermutes<T>(s: seq<T>, key: T -> int)
    ensures multiset(Sort(s, key)) == multiset(s)
  {
    if s != [] {
      SortPermutes(s[..|s| - 1], key);
      InsertAdds(Sort(s[..|s| - 1], key), s[|s| - 1], key);
      assert s == s[..|s| - 1] + [s[|s| - 1]];
    }
  }

  lemma {:induction false} InsertMembers<T>(s: seq<T>, x: T, key: T -> int, y: T)
    ensures y in Insert(s, x, key) <==> y in s || y == x
  {
    if s != [] {
      InsertMembers(s[..|s| - 1], x, key, y);
      assert y in s <==> y in s[..|s| - 1] || y == s[|s| - 1];
    }
  }

  lemma {:induction false} SortKeepsMembers<T>(s: seq<T>, key: T -> int, y: T)
    ensures y in Sort(s, key) <==> y in s
  {
    if s != [] {
      SortKeepsMembers(s[..|s| - 1], key, y);
      InsertMembers(Sort(s[..|s| - 1], key), s[|s| - 1], key, y);
      assert y in s <==> y in s[..|s| - 1] || y == s[|s| - 1];
    }
  }

  lemma {:induction false} InsertKeepsOrder<T>(s: seq<T>, x: T, key: T -> int)
    requires OrderedBy(s, key)
    ensures OrderedBy(Insert(s, x, key), key)
  {
    if s != [] && key(s[|s| - 1]) > key(x) {
      var init, last := s[..|s| - 1], s[|s| - 1];
      InsertKeepsOrder(init, x, key);
      forall y | y in Insert(init, x, key) ensures key(y) <= key(last) {
        InsertMembers(init, x, key, y);
      }
    }
  }

  lemma {:induction false} SortOrders<T>(s: seq<T>, key: T -> int)
    ensures OrderedBy(Sort(s, key), key)
  {
    if s != [] {
      SortOrders(s[..|s| - 1], key);
      InsertKeepsOrder(Sort(s[..|s| - 1], key), s[|s| - 1], key);
    }
  }

  lemma {:induction false} InsertGoesLast<T>(s: seq<T>, x: T, key: T -> int, k: int)
    ensures Group(Insert(s, x, key), key, k) == if key(x) == k then Group(s, key, k) + [x] else Group(s, key, k)
  {
    if s == [] || key(s[|s| - 1]) <= key(x) {
      assert s == [] ==> s + [x] == [x];
      Snoc(s, x, key, k, key);
    } else {
      InsertGoesLast(s[..|s| - 1], x, key, k);
      Snoc(Insert(s[..|s| - 1], x, key), s[|s| - 1], key, k, key);
    }
  }

  /** The sort is stable: what has the same key stays in its order. */
  lemma {:induction false} SortIsStable<T>(s: seq<T>, key: T -> int, k: int)
    ensures Group(Sort(s, key), key, k) == Group(s, key, k)
  {
    if s != [] {
      SortIsStable(s[..|s| - 1], key, k);
      InsertGoesLast(Sort(s[..|s| - 1], key), s[|s| - 1], key, k);
    }
  }
}
