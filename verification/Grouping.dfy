/** Rows grouped by a key, the way a dictionary filled in a loop groups them: keys in
    first-occurrence order, the rows of a key in their original order. */
module Grouping {

  /** The distinct keys, in the order in which they first occur. */
  function Keys<T, K(==)>(rows: seq<T>, key: T -> K): seq<K> {
    if rows == [] then [] else
      var before := Keys(rows[..|rows| - 1], key);
      var k := key(rows[|rows| - 1]);
      if k in before then before else before + [k]
  }

  /** The rows of one key. */
  function Group<T, K(==)>(rows: seq<T>, key: T -> K, k: K): seq<T> {
    if rows == [] then [] else
      var before := Group(rows[..|rows| - 1], key, k);
      if key(rows[|rows| - 1]) == k then before + [rows[|rows| - 1]] else before
  }

  /** The sum of a weight over rows. */
  function Total<T>(rows: seq<T>, weight: T -> int): int {
    if rows == [] then 0 else Total(rows[..|rows| - 1], weight) + weight(rows[|rows| - 1])
  }

  /** The sum of the groups' totals, over the given keys. */
  function TotalOfGroups<T, K(==)>(keys: seq<K>, rows: seq<T>, key: T -> K, weight: T -> int): int {
    if keys == [] then 0 else
      TotalOfGroups(keys[..|keys| - 1], rows, key, weight) + Total(Group(rows, key, keys[|keys| - 1]), weight)
  }

  ghost predicate Distinct<K>(keys: seq<K>) {
    forall i, j :: 0 <= i < j < |keys| ==> keys[i] != keys[j]
  }

  /** One more row: what it does to the keys and to every group. */
  lemma Snoc<T, K>(rows: seq<T>, x: T, key: T -> K, k: K, weight: T -> int)
    ensures Keys(rows + [x], key) == if key(x) in Keys(rows, key) then Keys(rows, key) else Keys(rows, key) + [key(x)]
    ensures Group(rows + [x], key, k) == if key(x) == k then Group(rows, key, k) + [x] else Group(rows, key, k)
    ensures Total(rows + [x], weight) == Total(rows, weight) + weight(x)
  {
    assert (rows + [x])[..|rows|] == rows;
  }

  lemma TotalSnoc<T>(rows: seq<T>, x: T, weight: T -> int)
    ensures Total(rows + [x], weight) == Total(rows, weight) + weight(x)
  {
    assert (rows + [x])[..|rows|] == rows;
  }

  lemma OneMore(a: int, n: int)
    ensures a * (n + 1) == a * n + a
  {
  }

  /** A sum lies between the number of rows times the lowest and times the highest weight. */
  lemma {:induction false} TotalBetween<T>(rows: seq<T>, weight: T -> int, low: int, high: int)
    requires forall i :: 0 <= i < |rows| ==> low <= weight(rows[i]) <= high
    ensures low * |rows| <= Total(rows, weight) <= high * |rows|
  {
    if rows != [] {
      var init := rows[..|rows| - 1];
      forall i | 0 <= i < |init| ensures low <= weight(init[i]) <= high {
        assert init[i] == rows[i];
      }
      TotalBetween(init, weight, low, high);
      OneMore(low, |init|);
      OneMore(high, |init|);
    }
  }

  lemma {:induction false} KeysAreDistinct<T, K>(rows: seq<T>, key: T -> K)
    ensures Distinct(Keys(rows, key))
  {
    if rows != [] {
      KeysAreDistinct(rows[..|rows| - 1], key);
    }
  }

  /** Exactly the keys that occur are listed, and exactly they have a group that is not empty. */
  lemma {:induction false} KeysAreThoseOfRows<T, K>(rows: seq<T>, key: T -> K, k: K)
    ensures k in Keys(rows, key) <==> exists r :: r in rows && key(r) == k
    ensures k in Keys(rows, key) <==> Group(rows, key, k) != []
  {
    if rows != [] {
      var init, x := rows[..|rows| - 1], rows[|rows| - 1];
      KeysAreThoseOfRows(init, key, k);
      assert forall r :: r in rows <==> r in init || r == x;
    }
  }

  lemma {:induction false} GroupMembers<T, K>(rows: seq<T>, key: T -> K, k: K, r: T)
    ensures r in Group(rows, key, k) <==> r in rows && key(r) == k
  {
    if rows != [] {
      GroupMembers(rows[..|rows| - 1], key, k, r);
    }
  }

  /** A group keeps the order of its rows: it is a subsequence. */
  lemma {:induction false} GroupKeepsOrder<T, K>(rows: seq<T>, key: T -> K, k: K, i: nat, j: nat) returns (i': nat, j': nat)
    requires i < j < |Group(rows, key, k)|
    ensures i' < j' < |rows| && rows[i'] == Group(rows, key, k)[i] && rows[j'] == Group(rows, key, k)[j]
  {
    var init, g := rows[..|rows| - 1], Group(rows, key, k);
    if j < |Group(init, key, k)| {
      i', j' := GroupKeepsOrder(init, key, k, i, j);
    } else {
      GroupMembers(init, key, k, g[i]);
      i', j' :| i' < |init| && init[i'] == g[i] && j' == |rows| - 1;
    }
  }

  lemma {:induction false} TotalOfGroupsSnoc<T, K>(keys: seq<K>, rows: seq<T>, x: T, key: T -> K, weight: T -> int)
    requires Distinct(keys)
    ensures TotalOfGroups(keys, rows + [x], key, weight)
         == TotalOfGroups(keys, rows, key, weight) + if key(x) in keys then weight(x) else 0
  {
    if keys != [] {
      var init, k := keys[..|keys| - 1], keys[|keys| - 1];
      TotalOfGroupsSnoc(init, rows, x, key, weight);
      Snoc(rows, x, key, k, weight);
      TotalSnoc(Group(rows, key, k), x, weight);
      assert forall c :: c in keys <==> c in init || c == k;
    }
  }

  /** The total of a key's group, when the key occurs for the first time. */
  lemma NewKeyTotal<T, K>(rows: seq<T>, x: T, key: T -> K, weight: T -> int)
    requires key(x) !in Keys(rows, key)
    ensures TotalOfGroups(Keys(rows, key) + [key(x)], rows + [x], key, weight)
         == TotalOfGroups(Keys(rows, key), rows + [x], key, weight) + weight(x)
  {
    var keys, k := Keys(rows, key), key(x);
    assert (keys + [k])[..|keys|] == keys;
    KeysAreThoseOfRows(rows, key, k);
    Snoc(rows, x, key, k, weight);
    TotalSnoc([], x, weight);
    assert [] + [x] == [x];
  }

  /** Nothing is lost or counted twice: the groups' totals add up to the total of the rows,
      for every weight.  With weight 1 for one row and 0 for the others, each row is in exactly one group. */
  lemma {:induction false} GroupsPartition<T, K>(rows: seq<T>, key: T -> K, weight: T -> int)
    ensures TotalOfGroups(Keys(rows, key), rows, key, weight) == Total(rows, weight)
  {
    if rows != [] {
      var init, x := rows[..|rows| - 1], rows[|rows| - 1];
      assert rows == init + [x];
      GroupsPartition(init, key, weight);
      KeysAreDistinct(init, key);
      TotalOfGroupsSnoc(Keys(init, key), init, x, key, weight);
      if key(x) !in Keys(init, key) {
        NewKeyTotal(init, x, key, weight);
      }
    }
  }

  /** A dictionary of lists, with its insertion order, holds the groups of the rows. */
  ghost predicate Grouped<T, K>(order: seq<K>, groups: map<K, seq<T>>, rows: seq<T>, key: T -> K) {
    && order == Keys(rows, key)
    && groups.Keys == (set k | k in order)
    && (forall k :: k in groups ==> groups[k] == Group(rows, key, k))
  }

  lemma GroupedSnoc<T, K>(order: seq<K>, groups: map<K, seq<T>>, rows: seq<T>, key: T -> K, x: T)
    requires Grouped(order, groups, rows, key)
    ensures key(x) in groups ==> Grouped(order, groups[key(x) := groups[key(x)] + [x]], rows + [x], key)
    ensures key(x) !in groups ==> Grouped(order + [key(x)], groups[key(x) := [x]], rows + [x], key)
  {
    assert (rows + [x])[..|rows|] == rows;
    KeysAreThoseOfRows(rows, key, key(x));
  }

  /** The loop that fills a dictionary of lists. */
  method GroupRows<T, K(==)>(rows: seq<T>, key: T -> K) returns (order: seq<K>, groups: map<K, seq<T>>)
    ensures Grouped(order, groups, rows, key)
  {
    order, groups := [], map[];
    for i := 0 to |rows|
      invariant Grouped(order, groups, rows[..i], key)
    {
      GroupedSnoc(order, groups, rows[..i], key, rows[i]);
      assert rows[..i + 1] == rows[..i] + [rows[i]];
      var k := key(rows[i]);
      if k in groups {
        groups := groups[k := groups[k] + [rows[i]]];
      } else {
        order, groups := order + [k], groups[k := [rows[i]]];
      }
    }
    assert rows[..|rows|] == rows;
  }
}
