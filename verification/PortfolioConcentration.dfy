/** Where a portfolio's value sits: allocation buckets, and the Herfindahl-Hirschman concentration. */
module PortfolioConcentration {
  import opened Grouping
  import opened Rounding
  import opened Sorting
  import opened Wrappers

  /** A portfolio item with the unit value the market data gives it, in cents. */
  datatype Item = Item(id: int, category: Option<string>, quantity: nat, unitValue: Option<nat>)

  /** An analysed holding; `category` is the field an allocation groups by. */
  datatype Holding = Holding(id: int, category: Option<string>, quantity: nat, value: Option<nat>)

  function Analyze(item: Item): Holding {
    Holding(item.id, item.category, item.quantity,
            if item.unitValue.None? then None else Some(item.unitValue.value * item.quantity))
  }

  function AnalyzeAll(items: seq<Item>): seq<Holding> {
    if items == [] then [] else AnalyzeAll(items[..|items| - 1]) + [Analyze(items[|items| - 1])]
  }

  function ItemWorth(): Item -> int {
    (item: Item) => if item.unitValue.None? then 0 else item.unitValue.value * item.quantity
  }

  function Worth(): Holding -> int { (h: Holding) => if h.value.None? then 0 else h.value.value }
  function Quantity(): Holding -> int { (h: Holding) => h.quantity }
  function Unvalued(): Holding -> int { (h: Holding) => if h.value.None? then 1 else 0 }
  function WorthSquared(): Holding -> int { (h: Holding) => Worth()(h) * Worth()(h) }

  /** The total of the analysis is what its holdings add up to. */
  lemma {:induction false} TotalIsSumOfHoldings(items: seq<Item>)
    ensures Total(items, ItemWorth()) == Total(AnalyzeAll(items), Worth())
  {
    if items != [] {
      var init := AnalyzeAll(items[..|items| - 1]);
      TotalIsSumOfHoldings(items[..|items| - 1]);
      assert (init + [Analyze(items[|items| - 1])])[..|init|] == init;
    }
  }

  // ---------------------------------------------------------------- allocation

  datatype Bucket = Bucket(key: string, holdingCount: int, quantity: int, marketValue: int, unvaluedCount: int)

  datatype Allocated = Allocated(bucket: Bucket, percent: int)

  function ByCategory(): Holding -> string { (h: Holding) => if h.category.None? then "Unknown" else h.category.value }
  function Descending(): Bucket -> int { (b: Bucket) => -b.marketValue }
  function One(): Holding -> int { (h: Holding) => 1 }

  /** The bucket of one group of holdings. */
  function BucketOf(holdings: seq<Holding>, key: string): Bucket {
    var g := Group(holdings, ByCategory(), key);
    Bucket(key, Total(g, One()), Total(g, Quantity()), Total(g, Worth()), Total(g, Unvalued()))
  }

  function BucketsOf(holdings: seq<Holding>, keys: seq<string>): seq<Bucket> {
    if keys == [] then [] else BucketsOf(holdings, keys[..|keys| - 1]) + [BucketOf(holdings, keys[|keys| - 1])]
  }

  /** A share in hundredths of a percent. */
  function Share(part: int, total: int): int {
    if total > 0 then HalfUp(10000 * part, total) else 0
  }

  function WithShares(buckets: seq<Bucket>, total: int): seq<Allocated> {
    seq(|buckets|, i requires 0 <= i < |buckets| => Allocated(buckets[i], Share(buckets[i].marketValue, total)))
  }

  function SortedBuckets(holdings: seq<Holding>): seq<Bucket> {
    Sort(BucketsOf(holdings, Keys(holdings, ByCategory())), Descending())
  }

  function AddTo(b: Bucket, h: Holding): Bucket {
    Bucket(b.key, b.holdingCount + 1, b.quantity + h.quantity,
           b.marketValue + if h.value.None? then 0 else h.value.value,
           b.unvaluedCount + if h.value.None? then 1 else 0)
  }

  lemma BucketSnoc(holdings: seq<Holding>, h: Holding, key: string)
    ensures BucketOf(holdings + [h], key)
         == if ByCategory()(h) == key then AddTo(BucketOf(holdings, key), h) else BucketOf(holdings, key)
  {
    Snoc(holdings, h, ByCategory(), key, One());
    var g := Group(holdings, ByCategory(), key);
    Snoc(g, h, ByCategory(), key, One());
    Snoc(g, h, ByCategory(), key, Quantity());
    Snoc(g, h, ByCategory(), key, Worth());
    Snoc(g, h, ByCategory(), key, Unvalued());
  }

  lemma EmptyBucket(holdings: seq<Holding>, key: string)
    requires key !in Keys(holdings, ByCategory())
    ensures BucketOf(holdings, key) == Bucket(key, 0, 0, 0, 0)
  {
    KeysAreThoseOfRows(holdings, ByCategory(), key);
  }

  /** The dictionary of buckets, with its insertion order, after some holdings. */
  ghost predicate Collected(order: seq<string>, grouped: map<string, Bucket>, holdings: seq<Holding>) {
    && order == Keys(holdings, ByCategory())
    && (forall k :: k in grouped <==> k in order)
    && (forall k :: k in grouped ==> grouped[k] == BucketOf(holdings, k))
  }

  lemma CollectedSnoc(order: seq<string>, grouped: map<string, Bucket>, holdings: seq<Holding>, h: Holding)
    requires Collected(order, grouped, holdings)
    ensures
      var k := ByCategory()(h);
      if k in grouped then Collected(order, grouped[k := AddTo(grouped[k], h)], holdings + [h])
      else Collected(order + [k], grouped[k := AddTo(Bucket(k, 0, 0, 0, 0), h)], holdings + [h])
  {
    var k := ByCategory()(h);
    Snoc(holdings, h, ByCategory(), k, One());
    BucketSnoc(holdings, h, k);
    forall j | j in grouped && j != k ensures BucketOf(holdings + [h], j) == BucketOf(holdings, j) {
      BucketSnoc(holdings, h, j);
    }
    if k !in grouped {
      EmptyBucket(holdings, k);
    }
  }

  /** The grouping loop of `_allocation`: the dictionary and its insertion order. */
  method CollectBuckets(holdings: seq<Holding>) returns (order: seq<string>, grouped: map<string, Bucket>)
    ensures Collected(order, grouped, holdings)
  {
    order, grouped := [], map[];
    for i := 0 to |holdings|
      invariant Collected(order, grouped, holdings[..i])
    {
      var h := holdings[i];
      var key := if h.category.None? then "Unknown" else h.category.value;
      CollectedSnoc(order, grouped, holdings[..i], h);
      assert holdings[..i + 1] == holdings[..i] + [h];
      if key !in grouped {
        order, grouped := order + [key], grouped[key := Bucket(key, 0, 0, 0, 0)];
      }
      grouped := grouped[key := AddTo(grouped[key], h)];
    }
    assert holdings[..|holdings|] == holdings;
  }

  /** `_allocation`. */
  method Allocation(holdings: seq<Holding>, total: int) returns (entries: seq<Allocated>)
    ensures entries == WithShares(SortedBuckets(holdings), total)
  {
    var order, grouped := CollectBuckets(holdings);
    var buckets := [];
    for i := 0 to |order|
      invariant buckets == BucketsOf(holdings, order[..i])
    {
      assert order[..i + 1][..i] == order[..i];
      buckets := buckets + [grouped[order[i]]];
    }
    assert order[..|order|] == order;
    buckets := Sort(buckets, Descending());
    entries := WithShares(buckets, total);
  }

  lemma {:induction false} TotalOfInsert<T>(s: seq<T>, x: T, key: T -> int, weight: T -> int)
    ensures Total(Insert(s, x, key), weight) == Total(s, weight) + weight(x)
  {
    if s == [] {
      TotalSnoc(s, x, weight);
      assert s + [x] == [x];
    } else if key(s[|s| - 1]) <= key(x) {
      TotalSnoc(s, x, weight);
    } else {
      TotalOfInsert(s[..|s| - 1], x, key, weight);
      TotalSnoc(Insert(s[..|s| - 1], x, key), s[|s| - 1], weight);
    }
  }

  lemma {:induction false} TotalOfSort<T>(s: seq<T>, key: T -> int, weight: T -> int)
    ensures Total(Sort(s, key), weight) == Total(s, weight)
  {
    if s != [] {
      TotalOfSort(s[..|s| - 1], key, weight);
      TotalOfInsert(Sort(s[..|s| - 1], key), s[|s| - 1], key, weight);
    }
  }

  /** One of the four figures a bucket adds up. */
  datatype Figure = HoldingCount | Units | MarketValue | UnvaluedCount

  function InBucket(f: Figure): Bucket -> int {
    match f
    case HoldingCount => (b: Bucket) => b.holdingCount
    case Units => (b: Bucket) => b.quantity
    case MarketValue => (b: Bucket) => b.marketValue
    case UnvaluedCount => (b: Bucket) => b.unvaluedCount
  }

  function InHolding(f: Figure): Holding -> int {
    match f
    case HoldingCount => One()
    case Units => Quantity()
    case MarketValue => Worth()
    case UnvaluedCount => Unvalued()
  }

  lemma {:induction false} BucketsAddUp(holdings: seq<Holding>, keys: seq<string>, f: Figure)
    ensures Total(BucketsOf(holdings, keys), InBucket(f)) == TotalOfGroups(keys, holdings, ByCategory(), InHolding(f))
  {
    if keys != [] {
      var init := BucketsOf(holdings, keys[..|keys| - 1]);
      BucketsAddUp(holdings, keys[..|keys| - 1], f);
      assert (init + [BucketOf(holdings, keys[|keys| - 1])])[..|init|] == init;
    }
  }

  /** The buckets conserve the number of holdings, their quantity, their value and the number
      of unvalued ones. */
  lemma AllocationConserves(holdings: seq<Holding>, f: Figure)
    ensures Total(SortedBuckets(holdings), InBucket(f)) == Total(holdings, InHolding(f))
  {
    var keys := Keys(holdings, ByCategory());
    BucketsAddUp(holdings, keys, f);
    GroupsPartition(holdings, ByCategory(), InHolding(f));
    TotalOfSort(BucketsOf(holdings, keys), Descending(), InBucket(f));
  }

  lemma {:induction false} BucketAt(holdings: seq<Holding>, keys: seq<string>, b: Bucket)
    ensures |BucketsOf(holdings, keys)| == |keys|
    ensures b in BucketsOf(holdings, keys) <==> b.key in keys && b == BucketOf(holdings, b.key)
  {
    if keys != [] {
      BucketAt(holdings, keys[..|keys| - 1], b);
      assert forall k :: k in keys <==> k in keys[..|keys| - 1] || k == keys[|keys| - 1];
    }
  }

  /** Holdings without a category, and those of a category of that name, are under "Unknown". */
  predicate InCategory(h: Holding, key: string) {
    h.category == Some(key) || (h.category.None? && key == "Unknown")
  }

  /** Each share of an allocation is the nearest hundredth of a percent, and none is given of a
      portfolio that is worth nothing. */
  lemma SharesAreNearest(holdings: seq<Holding>, total: int, i: nat)
    requires i < |SortedBuckets(holdings)|
    ensures var a := WithShares(SortedBuckets(holdings), total)[i];
            && a.bucket == SortedBuckets(holdings)[i]
            && if total > 0 then Nearest(a.percent, 10000, a.bucket.marketValue, total) else a.percent == 0
  {
    var b, keys := SortedBuckets(holdings)[i], Keys(holdings, ByCategory());
    SortKeepsMembers(BucketsOf(holdings, keys), Descending(), b);
    BucketAt(holdings, keys, b);
    TotalIsPositive(Group(holdings, ByCategory(), b.key));
    if total > 0 {
      HalfUpIsNearest(10000, b.marketValue, total);
    }
  }

  /** The buckets of an allocation are one for every category that occurs, each holding exactly
      its own group, with the largest value first. */
  lemma AllocationGroups(holdings: seq<Holding>, b: Bucket)
    ensures OrderedBy(SortedBuckets(holdings), Descending())
    ensures |SortedBuckets(holdings)| == |Keys(holdings, ByCategory())| && Distinct(Keys(holdings, ByCategory()))
    ensures b in SortedBuckets(holdings)
       <==> (exists h :: h in holdings && InCategory(h, b.key)) && b == BucketOf(holdings, b.key)
  {
    forall h ensures InCategory(h, b.key) <==> ByCategory()(h) == b.key {}
    var keys := Keys(holdings, ByCategory());
    SortOrders(BucketsOf(holdings, keys), Descending());
    KeysAreDistinct(holdings, ByCategory());
    BucketAt(holdings, keys, b);
    SortKeepsMembers(BucketsOf(holdings, keys), Descending(), b);
    KeysAreThoseOfRows(holdings, ByCategory(), b.key);
  }

  // ---------------------------------------------------------------- concentration

  datatype Level = Low | Moderate | High

  /** Figures in hundredths: of a percent, of an index point, of a holding. */
  datatype Concentration = Concentration(level: Level, hhi: int, effectiveCount: int, largest: int, topThree: int)

  function Valued(holdings: seq<Holding>): seq<Holding> {
    if holdings == [] then [] else
      var before, h := Valued(holdings[..|holdings| - 1]), holdings[|holdings| - 1];
      if h.value.Some? then before + [h] else before
  }

  function LargestFirst(): Holding -> int { (h: Holding) => -Worth()(h) }

  function Ranked(holdings: seq<Holding>): seq<Holding> { Sort(Valued(holdings), LargestFirst()) }

  function LevelOf(largest: int, hhi: int): Level {
    if largest >= 4000 || hhi >= 250000 then High
    else if largest >= 2000 || hhi >= 150000 then Moderate
    else Low
  }

  function TopThree(ranked: seq<Holding>): seq<Holding> { if |ranked| <= 3 then ranked else ranked[..3] }

  /** `_concentration`. */
  function Measure(holdings: seq<Holding>, total: int): Concentration {
    var ranked := Ranked(holdings);
    if ranked == [] || total <= 0 then Concentration(LevelOf(0, 0), 0, 0, 0, 0) else
      var hhi := Hhi(ranked, total);
      var largest := HalfUp(10000 * Worth()(ranked[0]), total);
      Concentration(LevelOf(largest, hhi), hhi, if hhi > 0 then HalfUp(100 * 1000000, hhi) else 0, largest,
                    HalfUp(10000 * Total(TopThree(ranked), Worth()), total))
  }

  /** The sum of the squared percentages. */
  function Hhi(ranked: seq<Holding>, total: int): int
    requires total > 0
  {
    Scale(1, total, total);
    HalfUp(1000000 * Total(ranked, WorthSquared()), total * total)
  }

  lemma {:induction false} TotalOfValued(holdings: seq<Holding>)
    ensures Total(Valued(holdings), Worth()) == Total(holdings, Worth())
  {
    if holdings != [] {
      var init, h := holdings[..|holdings| - 1], holdings[|holdings| - 1];
      TotalOfValued(init);
      assert (Valued(init) + [h])[..|Valued(init)|] == Valued(init);
    }
  }

  /** The shares of the valued holdings add up to exactly 100 percent: their values to the total. */
  lemma SharesAddUp(holdings: seq<Holding>)
    ensures Total(Ranked(holdings), Worth()) == Total(holdings, Worth())
  {
    TotalOfValued(holdings);
    TotalOfSort(Valued(holdings), LargestFirst(), Worth());
  }

  /** The squared distances of the values from x add up to a number that is not negative. */
  lemma {:induction false} SquaredDistances(s: seq<Holding>, x: int)
    ensures Total(s, WorthSquared()) - 2 * x * Total(s, Worth()) + |s| * (x * x) >= 0
  {
    if s != [] {
      var init, v := s[..|s| - 1], Worth()(s[|s| - 1]);
      SquaredDistances(init, x);
      Square(v - x);
      var s1, s2, n := Total(init, Worth()), Total(init, WorthSquared()), |init|;
      assert 2 * x * (s1 + v) == 2 * x * s1 + 2 * x * v;
      assert (n + 1) * (x * x) == n * (x * x) + x * x;
      assert (v - x) * (v - x) == v * v - 2 * x * v + x * x;
    }
  }

  lemma Square(d: int)
    ensures d * d >= 0
  {
  }

  /** Cauchy and Schwarz: the square of the sum is at most n times the sum of the squares. */
  lemma {:induction false} CauchySchwarz(s: seq<Holding>)
    ensures Total(s, Worth()) * Total(s, Worth()) <= |s| * Total(s, WorthSquared())
  {
    if s != [] {
      var init, v := s[..|s| - 1], Worth()(s[|s| - 1]);
      CauchySchwarz(init);
      SquaredDistances(init, v);
      var s1, s2, n := Total(init, Worth()), Total(init, WorthSquared()), |init|;
      assert (s1 + v) * (s1 + v) == s1 * s1 + 2 * v * s1 + v * v;
      assert (n + 1) * (s2 + v * v) == n * s2 + n * (v * v) + s2 + v * v;
    }
  }

  /** No value exceeds m: then the sum of the squares is at most m times the sum. */
  lemma {:induction false} SquaresBelow(s: seq<Holding>, m: int)
    requires forall h :: h in s ==> Worth()(h) <= m
    ensures 0 <= Total(s, WorthSquared()) <= m * Total(s, Worth())
    ensures 0 <= Total(s, Worth())
  {
    if s != [] {
      var init, x := s[..|s| - 1], s[|s| - 1];
      assert x in s && forall h :: h in init ==> h in s;
      SquaresBelow(init, m);
      Scale(Worth()(x), m, Worth()(x));
      Scale(0, Worth()(x), Worth()(x));
      assert m * (Total(init, Worth()) + Worth()(x)) == m * Total(init, Worth()) + m * Worth()(x);
    }
  }

  lemma {:induction false} PartBelowWhole(s: seq<Holding>, k: int)
    requires 0 <= k <= |s|
    ensures 0 <= Total(s[..k], Worth()) <= Total(s, Worth())
  {
    if k == |s| {
      assert s[..k] == s;
      TotalIsPositive(s);
    } else {
      assert s[..|s| - 1][..k] == s[..k];
      PartBelowWhole(s[..|s| - 1], k);
    }
  }

  lemma {:induction false} TotalIsPositive(s: seq<Holding>)
    ensures 0 <= Total(s, Worth())
  {
    if s != [] {
      TotalIsPositive(s[..|s| - 1]);
    }
  }

  lemma LargestIsFirst(holdings: seq<Holding>)
    requires Ranked(holdings) != []
    ensures forall h :: h in Ranked(holdings) ==> Worth()(h) <= Worth()(Ranked(holdings)[0])
  {
    var r := Ranked(holdings);
    SortOrders(Valued(holdings), LargestFirst());
    forall h | h in r ensures Worth()(h) <= Worth()(r[0]) {
      var i :| 0 <= i < |r| && r[i] == h;
      assert i > 0 ==> LargestFirst()(r[0]) <= LargestFirst()(r[i]);
    }
  }

  /** The unrounded index lies between 10000/n and 100 times the largest share: with S the sum
      of squares, T the total and m the largest value, T*T <= n*S and S <= m*T <= T*T. */
  lemma IndexBounds(holdings: seq<Holding>)
    requires Ranked(holdings) != []
    ensures
      var r := Ranked(holdings);
      var total, squares, largest := Total(r, Worth()), Total(r, WorthSquared()), Worth()(r[0]);
      && total * total <= |r| * squares
      && squares <= largest * total <= total * total
      && 0 <= largest <= total
  {
    var r := Ranked(holdings);
    CauchySchwarz(r);
    LargestIsFirst(holdings);
    SquaresBelow(r, Worth()(r[0]));
    assert r[..1] == [r[0]];
    assert Total(r[..1], Worth()) == Worth()(r[0]) by {
      assert [r[0]][..0] == [];
    }
    PartBelowWhole(r, 1);
    Scale(Worth()(r[0]), Total(r, Worth()), Total(r, Worth()));
  }

  lemma HhiBounds(squares: int, total: int, n: int)
    requires total > 0 && n > 0 && total * total <= n * squares && squares <= total * total
    ensures total * total > 0
    ensures HalfUp(1000000, n) <= HalfUp(1000000 * squares, total * total) <= 1000000
  {
    Scale(1, total, total);
    assert 1000000 * (total * total) <= 1000000 * squares * n;
    HalfUpMonotone(1000000, n, 1000000 * squares, total * total);
    HalfUpExact(1000000, 1);
    HalfUpMonotone(1000000 * squares, total * total, 1000000, 1);
  }

  /** What the stored figures satisfy whenever the portfolio is worth something. */
  lemma ConcentrationBounds(holdings: seq<Holding>)
    requires Total(holdings, Worth()) > 0
    ensures
      var c, n := Measure(holdings, Total(holdings, Worth())), |Valued(holdings)|;
      && n > 0
      && HalfUp(1000000, n) <= c.hhi <= 1000000
      && c.largest <= c.topThree <= 10000
      && (n <= 3 ==> c.topThree == 10000)
      && (n <= 2000000 ==> c.hhi > 0)
      && (c.effectiveCount >= 100 <==> c.hhi > 0)
  {
    var r, total := Ranked(holdings), Total(holdings, Worth());
    SharesAddUp(holdings);
    IndexBounds(holdings);
    HhiBounds(Total(r, WorthSquared()), total, |r|);
    TopThreeBounds(r, total);
    assert HalfUp(1000000, 2000000) == 1;
    if |r| <= 2000000 {
      HalfUpMonotone(1000000, 2000000, 1000000, |r|);
    }
    if Hhi(r, total) > 0 {
      HalfUpExact(100, 1);
      HalfUpMonotone(100, 1, 100 * 1000000, Hhi(r, total));
    }
  }

  /** `r` is the integer nearest to `scale * part / whole`, and the greater one of two. */
  predicate Nearest(r: int, scale: int, part: int, whole: int) {
    (2 * r - 1) * whole <= 2 * (scale * part) < (2 * r + 1) * whole
  }

  lemma HalfUpIsNearest(scale: int, part: int, whole: int)
    requires scale >= 0 && part >= 0 && whole > 0
    ensures Nearest(HalfUp(scale * part, whole), scale, part, whole)
  {
    Scale(0, part, scale);
  }

  lemma {:induction false} ValuedAre(holdings: seq<Holding>, h: Holding)
    ensures multiset(Valued(holdings))[h] == if h.value.Some? then multiset(holdings)[h] else 0
  {
    if holdings != [] {
      ValuedAre(holdings[..|holdings| - 1], h);
      assert holdings == holdings[..|holdings| - 1] + [holdings[|holdings| - 1]];
    }
  }

  /** The first three of the ranked holdings are worth at least as much as any of the others. */
  lemma TopIsGreatest(holdings: seq<Holding>, h: Holding, g: Holding)
    requires g in TopThree(Ranked(holdings)) && h in Ranked(holdings)[|TopThree(Ranked(holdings))|..]
    ensures Worth()(h) <= Worth()(g)
  {
    var r := Ranked(holdings);
    SortOrders(Valued(holdings), LargestFirst());
    var i :| 0 <= i < |TopThree(r)| && r[i] == g;
    var j :| |TopThree(r)| <= j < |r| && r[j] == h;
    assert LargestFirst()(r[i]) <= LargestFirst()(r[j]);
  }

  lemma GreatestIsFirst(holdings: seq<Holding>, greatest: Holding)
    requires greatest in Valued(holdings) && forall h :: h in Valued(holdings) ==> Worth()(h) <= Worth()(greatest)
    ensures Ranked(holdings) != [] && Worth()(Ranked(holdings)[0]) == Worth()(greatest)
  {
    SortKeepsMembers(Valued(holdings), LargestFirst(), greatest);
    LargestIsFirst(holdings);
    SortKeepsMembers(Valued(holdings), LargestFirst(), Ranked(holdings)[0]);
  }

  lemma FiguresOfRanked(holdings: seq<Holding>)
    requires Total(holdings, Worth()) > 0 && Ranked(holdings) != []
    ensures
      var r, T := Ranked(holdings), Total(holdings, Worth());
      var c := Measure(holdings, T);
      && Nearest(c.hhi, 1000000, Total(Valued(holdings), WorthSquared()), T * T)
      && Nearest(c.largest, 10000, Worth()(r[0]), T)
      && Nearest(c.topThree, 10000, Total(TopThree(r), Worth()), T)
      && (if c.hhi == 0 then c.effectiveCount == 0 else Nearest(c.effectiveCount, 100, 1000000, c.hhi))
  {
    var r, T := Ranked(holdings), Total(holdings, Worth());
    var squares, top := Total(r, WorthSquared()), Total(TopThree(r), Worth());
    FiguresHaveSigns(holdings);
    TotalOfSort(Valued(holdings), LargestFirst(), WorthSquared());
    FiguresAreNearest(squares, Worth()(r[0]), top, T);
  }

  lemma FiguresHaveSigns(holdings: seq<Holding>)
    requires Ranked(holdings) != []
    ensures var r := Ranked(holdings);
            Total(r, WorthSquared()) >= 0 && Worth()(r[0]) >= 0 && Total(TopThree(r), Worth()) >= 0
  {
    var r := Ranked(holdings);
    LargestIsFirst(holdings);
    SquaresBelow(r, Worth()(r[0]));
    TotalIsPositive(TopThree(r));
  }

  /** What the stored figures are.  With T the total of the holdings and S the sum of their squared
      values: the index is 10000 * S / T^2, the largest share that of a greatest value, the top three
      that of three values that no other exceeds, and the effective number 10000 over the index. */
  lemma FiguresAreExact(holdings: seq<Holding>, greatest: Holding) returns (top: seq<Holding>, rest: seq<Holding>)
    requires Total(holdings, Worth()) > 0
    requires greatest in Valued(holdings) && forall h :: h in Valued(holdings) ==> Worth()(h) <= Worth()(greatest)
    ensures multiset(top) + multiset(rest) == multiset(Valued(holdings))
    ensures |top| == if |Valued(holdings)| < 3 then |Valued(holdings)| else 3
    ensures forall h, g :: h in rest && g in top ==> Worth()(h) <= Worth()(g)
    ensures
      var T, S := Total(holdings, Worth()), Total(Valued(holdings), WorthSquared());
      var c := Measure(holdings, T);
      && Nearest(c.hhi, 1000000, S, T * T)
      && Nearest(c.largest, 10000, Worth()(greatest), T)
      && Nearest(c.topThree, 10000, Total(top, Worth()), T)
      && (if c.hhi == 0 then c.effectiveCount == 0 else Nearest(c.effectiveCount, 100, 1000000, c.hhi))
  {
    var r := Ranked(holdings);
    top, rest := TopThree(r), r[|TopThree(r)|..];
    SortPermutes(Valued(holdings), LargestFirst());
    assert r == top + rest;
    forall h, g | h in rest && g in top ensures Worth()(h) <= Worth()(g) { TopIsGreatest(holdings, h, g); }
    GreatestIsFirst(holdings, greatest);
    FiguresOfRanked(holdings);
  }

  lemma FiguresAreNearest(squares: int, greatest: int, top: int, T: int)
    requires T > 0 && squares >= 0 && greatest >= 0 && top >= 0
    ensures T * T > 0
    ensures var hhi := HalfUp(1000000 * squares, T * T);
            hhi >= 0 && Nearest(hhi, 1000000, squares, T * T) && (hhi > 0 ==> Nearest(HalfUp(100 * 1000000, hhi), 100, 1000000, hhi))
    ensures Nearest(HalfUp(10000 * greatest, T), 10000, greatest, T) && Nearest(HalfUp(10000 * top, T), 10000, top, T)
  {
    Scale(1, T, T);
    HalfUpIsNearest(1000000, squares, T * T);
    HalfUpIsNearest(10000, greatest, T);
    HalfUpIsNearest(10000, top, T);
    HalfUpExact(0, 1);
    HalfUpMonotone(0, 1, 1000000 * squares, T * T);
    var hhi := HalfUp(1000000 * squares, T * T);
    if hhi > 0 { HalfUpIsNearest(100, 1000000, hhi); }
  }

  /** The rating is read off the largest share and the index: high from 40 percent or 2500 points,
      else moderate from 20 percent or 1500 points.  A worthless portfolio has no figures. */
  lemma RatingIsExact(holdings: seq<Holding>, total: int)
    ensures
      var c := Measure(holdings, total);
      && (c.level == High <==> c.largest >= 4000 || c.hhi >= 250000)
      && (c.level == Moderate <==> c.largest < 4000 && c.hhi < 250000 && (c.largest >= 2000 || c.hhi >= 150000))
    ensures total <= 0 ==> Measure(holdings, total) == Concentration(Low, 0, 0, 0, 0)
  {
  }

  lemma TopThreeBounds(r: seq<Holding>, total: int)
    requires r != [] && total == Total(r, Worth()) > 0
    ensures HalfUp(10000 * Worth()(r[0]), total) <= HalfUp(10000 * Total(TopThree(r), Worth()), total) <= 10000
    ensures |r| <= 3 ==> HalfUp(10000 * Total(TopThree(r), Worth()), total) == 10000
  {
    var top := TopThree(r);
    assert top[..1] == [r[0]];
    assert Total(top[..1], Worth()) == Worth()(r[0]) by {
      assert [r[0]][..0] == [];
    }
    PartBelowWhole(top, 1);
    if |r| > 3 {
      PartBelowWhole(r, 3);
    }
    var part := Total(top, Worth());
    Scale(10000 * Worth()(r[0]), 10000 * part, total);
    Scale(10000 * part, 10000 * total, total);
    HalfUpMonotone(10000 * Worth()(r[0]), total, 10000 * part, total);
    HalfUpMonotone(10000 * part, total, 10000 * total, total);
    HalfUpExact(10000, total);
  }

  /** A valuable portfolio is rated low only if it has at least seven valued holdings. */
  lemma LowNeedsSeven(holdings: seq<Holding>)
    requires Total(holdings, Worth()) > 0
    requires Measure(holdings, Total(holdings, Worth())).level == Low
    ensures |Valued(holdings)| >= 7
  {
    ConcentrationBounds(holdings);
    assert HalfUp(1000000, 6) == 166667;
    if |Valued(holdings)| < 7 {
      HalfUpMonotone(1000000, 6, 1000000, |Valued(holdings)|);
    }
  }

  /** With fewer than seven valued holdings the rating is low exactly when they are worth nothing. */
  lemma FewAreLowWhenWorthless(holdings: seq<Holding>)
    requires |Valued(holdings)| < 7
    ensures Measure(holdings, Total(holdings, Worth())).level == Low <==> Total(holdings, Worth()) == 0
  {
    TotalIsPositive(holdings);
    if Measure(holdings, Total(holdings, Worth())).level == Low && Total(holdings, Worth()) > 0 {
      LowNeedsSeven(holdings);
    }
  }

  /** A single valued holding is the whole portfolio. */
  lemma SingleHolding(holdings: seq<Holding>)
    requires Total(holdings, Worth()) > 0 && |Valued(holdings)| == 1
    ensures Measure(holdings, Total(holdings, Worth())) == Concentration(High, 1000000, 100, 10000, 10000)
  {
    ConcentrationBounds(holdings);
    var r, total := Ranked(holdings), Total(holdings, Worth());
    SharesAddUp(holdings);
    HalfUpExact(1000000, 1);
    assert r == [r[0]] && [r[0]][..0] == [];
    assert Worth()(r[0]) == total;
    HalfUpExact(10000, total);
    HalfUpExact(100, 1000000);
  }
}
