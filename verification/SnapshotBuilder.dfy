/** Condition-specific price metrics, with listings beyond the interquartile fences left out. */
module SnapshotBuilder {
  import opened Grouping
  import opened Rounding
  import opened Sorting
  import opened Wrappers

  const IQR_MIN_SAMPLE_SIZE := 4

  type Positive = x: int | x > 0 witness 1

  /** An exchange rate as an exact fraction. */
  datatype Rate = Rate(num: int, den: Positive)

  /** A source listing; money in cents, `rate` the outcome of its exchange-rate lookup. */
  datatype Listing = Listing(id: int, condition: Option<string>, isSealed: Option<bool>, isComplete: Option<bool>,
                             price: Option<int>, shipping: int, rate: Option<Rate>)

  /** A listing as the outlier filter sees it. */
  datatype Sample = Sample(source: Listing, price: Option<int>, shipping: int)

  datatype Metric = LowPrice | Median | Average | HighPrice | FairMarketValue

  /** The IQR fences, in eighths of a cent. */
  datatype Fences = Fences(lower: int, upper: int)

  datatype Row = Row(condition: string, metric: Metric, value: int, sampleSize: nat,
                     included: seq<Sample>, excluded: seq<Sample>, fences: Option<Fences>)

  // ---------------------------------------------------------------- listings

  function PricingCondition(l: Listing): Option<string> {
    if l.condition == Some("new") || l.isSealed == Some(true) then Some("new")
    else if l.isComplete == Some(true) then Some("used_complete")
    else if l.isComplete == Some(false) then Some("incomplete")
    else None
  }

  function Convert(cents: int, rate: Rate): int { HalfUp(cents * rate.num, rate.den) }

  /** A listing enters the build when it has a condition, a price and a usable rate. */
  predicate Eligible(l: Listing) {
    PricingCondition(l).Some? && l.price.Some? && l.rate.Some?
  }

  function ConvertListing(l: Listing): Sample
    requires Eligible(l)
  {
    Sample(l, Some(Convert(l.price.value, l.rate.value)), Convert(l.shipping, l.rate.value))
  }

  /** What is new, by its label or its seal, is priced as new; of the rest, what is known to be complete
      or incomplete as such, and nothing else is priced. */
  lemma ConditionIsExact(l: Listing)
    ensures
      var isNew := l.condition == Some("new") || l.isSealed == Some(true);
      PricingCondition(l) == (if isNew then Some("new")
                              else match l.isComplete case None => None case Some(c) => Some(if c then "used_complete" else "incomplete"))
  {
  }

  /** A converted amount is the nearest cent, and a listing's price is the sum of the two amounts. */
  lemma ConversionIsExact(l: Listing)
    requires Eligible(l) && l.price.value >= 0 && l.rate.value.num >= 0
    ensures
      var s, r := ConvertListing(l), l.rate.value;
      && s.source == l && s.price.Some? && TotalPrice(s) == Some(s.price.value + s.shipping)
      && (2 * s.price.value - 1) * r.den <= 2 * (l.price.value * r.num) < (2 * s.price.value + 1) * r.den
      && (2 * s.shipping - 1) * r.den <= 2 * (l.shipping * r.num) <= (2 * s.shipping + 1) * r.den
  {
    Scale(0, l.price.value, l.rate.value.num);
  }

  function Samples(listings: seq<Listing>): seq<Sample> {
    if listings == [] then [] else
      var before, l := Samples(listings[..|listings| - 1]), listings[|listings| - 1];
      if Eligible(l) then before + [ConvertListing(l)] else before
  }

  /** A listing that touches the dictionary of groups: its conversion may still fail. */
  predicate Candidate(l: Listing) { PricingCondition(l).Some? && l.price.Some? }

  function Candidates(listings: seq<Listing>): seq<Listing> {
    if listings == [] then [] else
      var before, l := Candidates(listings[..|listings| - 1]), listings[|listings| - 1];
      if Candidate(l) then before + [l] else before
  }

  function ByCondition(): Listing -> string {
    (l: Listing) => if PricingCondition(l).Some? then PricingCondition(l).value else ""
  }

  function TotalPrice(s: Sample): Option<int> {
    if s.price.None? then None else Some(s.price.value + s.shipping)
  }

  function Prices(samples: seq<Sample>): seq<int> {
    if samples == [] then [] else
      var before, t := Prices(samples[..|samples| - 1]), TotalPrice(samples[|samples| - 1]);
      if t.Some? then before + [t.value] else before
  }

  // ---------------------------------------------------------------- the fences

  function Cents(): int -> int { x => x }

  function Ascending(prices: seq<int>): seq<int> { Sort(prices, Cents()) }

  /** `quantiles(n=4, method="inclusive")`: the i-th quartile, in quarters of a cent. */
  function Quartile(sorted: seq<int>, i: int): int
    requires |sorted| >= IQR_MIN_SAMPLE_SIZE && 1 <= i <= 3
  {
    var m := |sorted| - 1;
    var j, delta := i * m / 4, i * m % 4;
    sorted[j] * (4 - delta) + sorted[j + 1] * delta
  }

  function FencesOf(prices: seq<int>): Fences
    requires |prices| >= IQR_MIN_SAMPLE_SIZE
  {
    var sorted := Ascending(prices);
    var q1, q3 := Quartile(sorted, 1), Quartile(sorted, 3);
    Fences(2 * q1 - 3 * (q3 - q1), 2 * q3 + 3 * (q3 - q1))
  }

  predicate Inside(f: Fences, cents: int) { f.lower <= 8 * cents <= f.upper }

  function Kept(f: Fences): Sample -> bool {
    (s: Sample) => TotalPrice(s).Some? && Inside(f, TotalPrice(s).value)
  }

  /** What `_exclude_iqr_outliers` returns. */
  datatype Split = Split(included: seq<Sample>, excluded: seq<Sample>, fences: Option<Fences>)

  function SplitOf(samples: seq<Sample>): Split {
    if |Prices(samples)| < IQR_MIN_SAMPLE_SIZE then Split(samples, [], None) else
      var f := FencesOf(Prices(samples));
      Split(Group(samples, Kept(f), true), Group(samples, Kept(f), false), Some(f))
  }

  /** `_exclude_iqr_outliers`. */
  method ExcludeIqrOutliers(samples: seq<Sample>) returns (r: Split)
    ensures r == SplitOf(samples)
  {
    if |Prices(samples)| < IQR_MIN_SAMPLE_SIZE {
      return Split(samples, [], None);
    }
    var f := FencesOf(Prices(samples));
    var included, excluded := [], [];
    for i := 0 to |samples|
      invariant included == Group(samples[..i], Kept(f), true)
      invariant excluded == Group(samples[..i], Kept(f), false)
    {
      assert samples[..i + 1][..i] == samples[..i];
      var total := TotalPrice(samples[i]);
      if total.Some? && f.lower <= 8 * total.value <= f.upper {
        included := included + [samples[i]];
      } else {
        excluded := excluded + [samples[i]];
      }
    }
    assert samples[..|samples|] == samples;
    r := Split(included, excluded, Some(f));
  }

  /** The split loses no listing and duplicates none. */
  lemma SplitIsPartition(samples: seq<Sample>)
    ensures multiset(SplitOf(samples).included) + multiset(SplitOf(samples).excluded) == multiset(samples)
  {
    if |Prices(samples)| >= IQR_MIN_SAMPLE_SIZE {
      HalvesArePartition(samples, Kept(FencesOf(Prices(samples))));
    }
  }

  lemma {:induction false} HalvesArePartition(samples: seq<Sample>, kept: Sample -> bool)
    ensures multiset(Group(samples, kept, true)) + multiset(Group(samples, kept, false)) == multiset(samples)
  {
    if samples != [] {
      var init, x := samples[..|samples| - 1], samples[|samples| - 1];
      HalvesArePartition(init, kept);
      assert samples == init + [x];
      assert Group(samples, kept, kept(x)) == Group(init, kept, kept(x)) + [x];
      assert Group(samples, kept, !kept(x)) == Group(init, kept, !kept(x));
    }
  }

  // ---------------------------------------------------------------- which prices survive

  function Clip(prices: seq<int>, f: Fences): seq<int> {
    if prices == [] then [] else
      var before, x := Clip(prices[..|prices| - 1], f), prices[|prices| - 1];
      if Inside(f, x) then before + [x] else before
  }

  lemma {:induction false} PricesOfKept(samples: seq<Sample>, f: Fences)
    ensures Prices(Group(samples, Kept(f), true)) == Clip(Prices(samples), f)
  {
    if samples != [] {
      PricesOfKept(samples[..|samples| - 1], f);
      var before, t := Prices(samples[..|samples| - 1]), TotalPrice(samples[|samples| - 1]);
      if t.Some? {
        assert (before + [t.value])[..|before|] == before;
      }
      var kept, s := Group(samples[..|samples| - 1], Kept(f), true), samples[|samples| - 1];
      assert (kept + [s])[..|kept|] == kept;
    }
  }

  lemma {:induction false} ClipInsert(s: seq<int>, x: int, f: Fences)
    requires OrderedBy(s, Cents())
    ensures Clip(Insert(s, x, Cents()), f) == if Inside(f, x) then Insert(Clip(s, f), x, Cents()) else Clip(s, f)
  {
    if s == [] {
      assert [x][..0] == [];
    } else {
      var init, last := s[..|s| - 1], s[|s| - 1];
      var c := Clip(init, f);
      if last <= x {
        assert (s + [x])[..|s|] == s;
        ClipMembers(s, f);
        var cs := Clip(s, f);
        if cs != [] {
          assert cs[|cs| - 1] in cs;
          var i :| 0 <= i < |s| && s[i] == cs[|cs| - 1];
          assert i < |s| - 1 ==> Cents()(s[i]) <= Cents()(s[|s| - 1]);
        }
      } else {
        ClipInsert(init, x, f);
        var r := Insert(init, x, Cents());
        assert (r + [last])[..|r|] == r;
        assert (c + [last])[..|c|] == c;
      }
    }
  }

  lemma {:induction false} ClipMembers(s: seq<int>, f: Fences)
    ensures forall x :: x in Clip(s, f) <==> x in s && Inside(f, x)
  {
    if s != [] {
      ClipMembers(s[..|s| - 1], f);
      assert forall x :: x in s <==> x in s[..|s| - 1] || x == s[|s| - 1];
    }
  }

  lemma {:induction false} ClipCommutesWithSort(prices: seq<int>, f: Fences)
    ensures Ascending(Clip(prices, f)) == Clip(Ascending(prices), f)
  {
    if prices != [] {
      var init, x := prices[..|prices| - 1], prices[|prices| - 1];
      ClipCommutesWithSort(init, f);
      SortOrders(init, Cents());
      ClipInsert(Ascending(init), x, f);
      var c := Clip(init, f);
      assert (c + [x])[..|c|] == c;
    }
  }

  /** Exactly the positions from a up to b are inside. */
  ghost predicate Stretch(s: seq<int>, f: Fences, a: int, b: int) {
    0 <= a <= b <= |s| && forall k :: 0 <= k < |s| ==> (a <= k < b <==> Inside(f, s[k]))
  }

  lemma StretchSnoc(s: seq<int>, x: int, f: Fences, a: int, b: int)
    requires OrderedBy(s + [x], Cents()) && Stretch(s, f, a, b)
    ensures !Inside(f, x) ==> Stretch(s + [x], f, a, b)
    ensures Inside(f, x) && a == b ==> Stretch(s + [x], f, |s|, |s| + 1)
    ensures Inside(f, x) && a < b ==> b == |s| && Stretch(s + [x], f, a, b + 1)
  {
    var t := s + [x];
    assert t[|s|] == x;
    assert a < b < |s| ==> Cents()(t[b - 1]) <= Cents()(t[b]) <= Cents()(t[|s|]);
  }

  lemma {:induction false} StretchExists(s: seq<int>, f: Fences) returns (a: nat, b: nat)
    requires OrderedBy(s, Cents())
    ensures Stretch(s, f, a, b)
  {
    if s == [] {
      a, b := 0, 0;
    } else {
      var init, last := s[..|s| - 1], s[|s| - 1];
      assert s == init + [last];
      a, b := StretchExists(init, f);
      StretchSnoc(init, last, f, a, b);
      if Inside(f, last) {
        a, b := if a == b then |init| else a, |s|;
      }
    }
  }

  /** Clipping an ordered list to an interval leaves a contiguous stretch of it. */
  lemma {:induction false} ClipIsSlice(s: seq<int>, f: Fences, a: nat, b: nat)
    requires Stretch(s, f, a, b)
    ensures Clip(s, f) == s[a..b]
  {
    if s != [] {
      var init, last := s[..|s| - 1], s[|s| - 1];
      if a == b {
        assert !Inside(f, last);
        ClipIsSlice(init, f, 0, 0);
        assert init[0..0] == [] && s[a..b] == [];
      } else if b == |s| {
        assert Inside(f, last);
        ClipIsSlice(init, f, a, b - 1);
        SliceSnoc(s, a);
      } else {
        assert !Inside(f, last);
        ClipIsSlice(init, f, a, b);
        SliceInside(s, a, b);
      }
    }
  }

  lemma SliceSnoc(s: seq<int>, a: nat)
    requires a < |s|
    ensures s[a..|s|] == s[..|s| - 1][a..|s| - 1] + [s[|s| - 1]]
  {
  }

  lemma SliceInside(s: seq<int>, a: nat, b: nat)
    requires a <= b < |s|
    ensures s[..|s| - 1][a..b] == s[a..b]
  {
  }

  /** The sorted positions from just above the lower quartile's index up to the upper one's. */
  function LowIndex(n: int): int { (n - 1) / 4 }
  function HighIndex(n: int): int { 3 * (n - 1) / 4 }

  /** Around the quartiles, the sorted prices are in order. */
  lemma QuartileNeighbours(prices: seq<int>, k: int)
    requires |prices| >= IQR_MIN_SAMPLE_SIZE && LowIndex(|prices|) < k <= HighIndex(|prices|)
    ensures
      var s, low, high := Ascending(prices), LowIndex(|prices|), HighIndex(|prices|);
      0 <= low < high < |s| - 1 && s[low] <= s[low + 1] <= s[k] <= s[high] <= s[high + 1]
  {
    var s, low, high := Ascending(prices), LowIndex(|prices|), HighIndex(|prices|);
    SortOrders(prices, Cents());
    assert forall i, j :: 0 <= i <= j < |s| ==> Cents()(s[i]) <= Cents()(s[j]);
    assert Cents()(s[low]) <= Cents()(s[low + 1]) <= Cents()(s[k]) <= Cents()(s[high]) <= Cents()(s[high + 1]);
  }

  lemma CoreIsInside(prices: seq<int>, k: int)
    requires |prices| >= IQR_MIN_SAMPLE_SIZE && LowIndex(|prices|) < k <= HighIndex(|prices|)
    ensures Inside(FencesOf(prices), Ascending(prices)[k])
  {
    var s, m := Ascending(prices), |prices| - 1;
    QuartileNeighbours(prices, k);
    Interpolated(s[m / 4], s[m / 4 + 1], m % 4);
    Interpolated(s[3 * m / 4], s[3 * m / 4 + 1], 3 * m % 4);
  }

  lemma Interpolated(a: int, b: int, delta: int)
    requires a <= b && 0 <= delta < 4
    ensures 4 * a <= a * (4 - delta) + b * delta <= 4 * b
  {
    Scale(a, b, delta);
    Scale(a, b, 4 - delta);
  }

  /** The kept prices are a gap-free stretch of the sorted prices that holds every position
      above the lower-quartile index up to the upper-quartile index, so at least half of n - 1. */
  lemma KeptPricesAreCentral(samples: seq<Sample>) returns (a: nat, b: nat)
    requires |Prices(samples)| >= IQR_MIN_SAMPLE_SIZE
    ensures
      var n := |Prices(samples)|;
      && a <= LowIndex(n) + 1 && HighIndex(n) < b <= n
      && Ascending(Prices(SplitOf(samples).included)) == Ascending(Prices(samples))[a..b]
      && |Prices(SplitOf(samples).included)| == b - a >= (n - 1) / 2
  {
    var prices := Prices(samples);
    var f := FencesOf(prices);
    PricesOfKept(samples, f);
    ClipCommutesWithSort(prices, f);
    SortOrders(prices, Cents());
    a, b := StretchExists(Ascending(prices), f);
    ClipIsSlice(Ascending(prices), f, a, b);
    CoreIsInside(prices, LowIndex(|prices|) + 1);
    CoreIsInside(prices, HighIndex(|prices|));
  }

  // ---------------------------------------------------------------- the metrics

  /** Twice the median of a sorted list. */
  function Median2(sorted: seq<int>): int
    requires sorted != []
  {
    var h := |sorted| / 2;
    if |sorted| % 2 == 1 then 2 * sorted[h] else sorted[h - 1] + sorted[h]
  }

  function MetricValue(sorted: seq<int>, metric: Metric): int
    requires sorted != []
  {
    match metric
    case LowPrice => sorted[0]
    case Median => HalfUp(Median2(sorted), 2)
    case Average => HalfUp(Total(sorted, Cents()), |sorted|)
    case HighPrice => sorted[|sorted| - 1]
    case FairMarketValue => HalfUp(Median2(sorted), 2)
  }

  const METRICS := [LowPrice, Median, Average, HighPrice, FairMarketValue]

  /** Every stored metric lies between the stored low and high, also after rounding. */
  lemma MetricsAreOrdered(prices: seq<int>, metric: Metric)
    requires prices != []
    ensures
      var s := Ascending(prices);
      MetricValue(s, LowPrice) <= MetricValue(s, metric) <= MetricValue(s, HighPrice)
  {
    var s := Ascending(prices);
    SortOrders(prices, Cents());
    var low, high := s[0], s[|s| - 1];
    forall x | x in s ensures low <= x <= high {
      var i :| 0 <= i < |s| && s[i] == x;
      assert Cents()(low) <= Cents()(s[i]) || i == 0;
      assert Cents()(s[i]) <= Cents()(high) || i == |s| - 1;
    }
    TotalBetween(s, Cents(), low, high);
    HalfUpExact(low, 1);
    HalfUpExact(high, 1);
    HalfUpMonotone(low, 1, Total(s, Cents()), |s|);
    HalfUpMonotone(Total(s, Cents()), |s|, high, 1);
    HalfUpMonotone(low, 1, Median2(s), 2);
    HalfUpMonotone(Median2(s), 2, high, 1);
  }

  // ---------------------------------------------------------------- what the fences and figures are

  /** Where the i-th of four quantiles lies on the sorted positions 0 .. n - 1. */
  function Position(n: int, i: int): real { (i * (n - 1)) as real / 4.0 }

  /** The value at a position between two places of an ordered list. */
  function ValueAt(sorted: seq<int>, position: real): real
    requires 0 <= position.Floor < |sorted| - 1
  {
    var j := position.Floor;
    sorted[j] as real + (position - j as real) * ((sorted[j + 1] - sorted[j]) as real)
  }

  lemma PositionParts(k: int)
    ensures (k as real / 4.0).Floor == k / 4 && k as real / 4.0 - (k / 4) as real == (k % 4) as real / 4.0
  {
    var q, d := k / 4, k % 4;
    assert k == 4 * q + d;
    assert k as real / 4.0 == q as real + d as real / 4.0;
  }

  /** A quartile is the linear interpolation at its position. */
  lemma QuartileIsInterpolated(sorted: seq<int>, i: int)
    requires |sorted| >= IQR_MIN_SAMPLE_SIZE && 1 <= i <= 3
    ensures 0 <= Position(|sorted|, i).Floor < |sorted| - 1
    ensures Quartile(sorted, i) as real == 4.0 * ValueAt(sorted, Position(|sorted|, i))
  {
    var k := i * (|sorted| - 1);
    PositionParts(k);
    var j, d := k / 4, k % 4;
    var a, b := sorted[j], sorted[j + 1];
    assert a * (4 - d) + b * d == 4 * a + d * (b - a);
    assert (d * (b - a)) as real == d as real * (b - a) as real;
  }

  /** The lower and upper quartile of the prices, in cents. */
  function LowerQuartile(prices: seq<int>): real
    requires |prices| >= IQR_MIN_SAMPLE_SIZE
  {
    QuartileIsInterpolated(Ascending(prices), 1);
    ValueAt(Ascending(prices), Position(|prices|, 1))
  }

  function UpperQuartile(prices: seq<int>): real
    requires |prices| >= IQR_MIN_SAMPLE_SIZE
  {
    QuartileIsInterpolated(Ascending(prices), 3);
    ValueAt(Ascending(prices), Position(|prices|, 3))
  }

  /** A listing is left out if and only if there are at least four prices and its own, shipping included,
      is missing or lies more than one and a half interquartile ranges beyond a quartile. */
  lemma ExcludedIsExact(samples: seq<Sample>, s: Sample)
    requires s in samples
    ensures
      var split, prices := SplitOf(samples), Prices(samples);
      && (s in split.included <==> s !in split.excluded)
      && (s in split.excluded <==>
            && |prices| >= 4
            && var q1, q3 := LowerQuartile(prices), UpperQuartile(prices);
               || s.price.None?
               || (s.price.value + s.shipping) as real < q1 - 1.5 * (q3 - q1)
               || (s.price.value + s.shipping) as real > q3 + 1.5 * (q3 - q1))
  {
    var prices := Prices(samples);
    if |prices| >= IQR_MIN_SAMPLE_SIZE {
      var sorted := Ascending(prices);
      QuartileIsInterpolated(sorted, 1);
      QuartileIsInterpolated(sorted, 3);
      var f := FencesOf(prices);
      GroupMembers(samples, Kept(f), true, s);
      GroupMembers(samples, Kept(f), false, s);
    }
  }

  /** Of an ordered list the low and high price are its ends, the median half of what the middle place, or
      the two middle places, add up to, and the average the sum over the number, the latter rounded to
      the nearest cent; the fair value is the median. */
  lemma MetricsAreExact(sorted: seq<int>)
    requires sorted != []
    ensures
      var n := |sorted|;
      var middle := sorted[(n - 1) / 2] + sorted[n / 2];
      && MetricValue(sorted, LowPrice) == sorted[0] && MetricValue(sorted, HighPrice) == sorted[n - 1]
      && 2 * MetricValue(sorted, Median) - 1 <= middle <= 2 * MetricValue(sorted, Median) + 1
      && (middle % 2 == 1 && middle > 0 ==> 2 * MetricValue(sorted, Median) == middle + 1)
      && (2 * MetricValue(sorted, Average) - 1) * n <= 2 * Total(sorted, Cents()) <= (2 * MetricValue(sorted, Average) + 1) * n
      && (Total(sorted, Cents()) >= 0 ==> 2 * Total(sorted, Cents()) < (2 * MetricValue(sorted, Average) + 1) * n)
      && MetricValue(sorted, FairMarketValue) == MetricValue(sorted, Median)
  {
  }

  // ---------------------------------------------------------------- the build

  /** The rows of one condition: five metrics, or none without a numeric price. */
  function MetricRows(condition: string, split: Split): seq<Row> {
    var sorted := Ascending(Prices(split.included));
    if sorted == [] then [] else
      seq(|METRICS|, i requires 0 <= i < |METRICS| =>
        Row(condition, METRICS[i], MetricValue(sorted, METRICS[i]), |sorted|, split.included, split.excluded, split.fences))
  }

  /** The conditions that own a group, in the order in which their groups were made. */
  function Touched(listings: seq<Listing>): seq<string> { Keys(Candidates(listings), ByCondition()) }

  /** The convertible listings of a condition; none if every conversion failed. */
  function SamplesFor(listings: seq<Listing>, condition: string): seq<Sample> {
    Samples(Group(Candidates(listings), ByCondition(), condition))
  }

  function SplitFor(listings: seq<Listing>, condition: string): Split {
    SplitOf(SamplesFor(listings, condition))
  }

  function Occupied(listings: seq<Listing>, conditions: seq<string>): seq<string> {
    if conditions == [] then [] else
      var before, c := Occupied(listings, conditions[..|conditions| - 1]), conditions[|conditions| - 1];
      if SamplesFor(listings, c) != [] then before + [c] else before
  }

  /** The conditions with a usable listing, in the order of their groups. */
  function Conditions(listings: seq<Listing>): seq<string> { Occupied(listings, Touched(listings)) }

  function Flatten<T>(blocks: seq<seq<T>>): seq<T> {
    if blocks == [] then [] else Flatten(blocks[..|blocks| - 1]) + blocks[|blocks| - 1]
  }

  lemma FlattenOneMore<T>(blocks: seq<seq<T>>, i: nat)
    requires i < |blocks|
    ensures Flatten(blocks[..i + 1]) == Flatten(blocks[..i]) + blocks[i]
  {
    assert blocks[..i + 1][..i] == blocks[..i];
  }

  function Blocks(listings: seq<Listing>, conditions: seq<string>): seq<seq<Row>> {
    seq(|conditions|, i requires 0 <= i < |conditions| => MetricRows(conditions[i], SplitFor(listings, conditions[i])))
  }

  function RowsFor(listings: seq<Listing>): seq<Row> {
    Flatten(Blocks(listings, Touched(listings)))
  }

  lemma SamplesSnoc(listings: seq<Listing>, l: Listing)
    ensures Samples(listings + [l]) == if Eligible(l) then Samples(listings) + [ConvertListing(l)] else Samples(listings)
  {
    assert (listings + [l])[..|listings|] == listings;
  }

  lemma CandidatesSnoc(listings: seq<Listing>, i: nat)
    requires i < |listings|
    ensures Candidates(listings[..i + 1])
         == if Candidate(listings[i]) then Candidates(listings[..i]) + [listings[i]] else Candidates(listings[..i])
  {
    assert listings[..i + 1][..i] == listings[..i];
  }

  /** The dictionary, with its insertion order, holds the converted listings of every group. */
  ghost predicate Collected(order: seq<string>, groups: map<string, seq<Sample>>, candidates: seq<Listing>) {
    && order == Keys(candidates, ByCondition())
    && (forall c :: c in groups <==> c in order)
    && (forall c :: c in groups ==> groups[c] == Samples(Group(candidates, ByCondition(), c)))
  }

  /** A candidate makes its group if there is none, and joins it if it can be converted. */
  lemma CollectedSnoc(order: seq<string>, groups: map<string, seq<Sample>>, candidates: seq<Listing>, l: Listing)
    requires Collected(order, groups, candidates) && Candidate(l)
    ensures
      var c := ByCondition()(l);
      var touched := if c in groups then groups else groups[c := []];
      Collected(if c in groups then order else order + [c],
                if Eligible(l) then touched[c := touched[c] + [ConvertListing(l)]] else touched,
                candidates + [l])
  {
    var c := ByCondition()(l);
    assert (candidates + [l])[..|candidates|] == candidates;
    KeysAreThoseOfRows(candidates, ByCondition(), c);
    SamplesSnoc(Group(candidates, ByCondition(), c), l);
  }

  /** The first loop.  The group is looked up, and made, before the conversion is tried. */
  method GroupByCondition(listings: seq<Listing>) returns (order: seq<string>, groups: map<string, seq<Sample>>)
    ensures Collected(order, groups, Candidates(listings))
  {
    order, groups := [], map[];
    for i := 0 to |listings|
      invariant Collected(order, groups, Candidates(listings[..i]))
    {
      CandidatesSnoc(listings, i);
      var condition := PricingCondition(listings[i]);
      if condition.None? || listings[i].price.None? {
        continue;
      }
      CollectedSnoc(order, groups, Candidates(listings[..i]), listings[i]);
      var c := condition.value;
      if c !in groups {
        order, groups := order + [c], groups[c := []];
      }
      if listings[i].rate.None? {
        continue;
      }
      groups := groups[c := groups[c] + [ConvertListing(listings[i])]];
    }
    assert listings[..|listings|] == listings;
  }

  /** `build`. */
  method Build(listings: seq<Listing>) returns (rows: seq<Row>)
    ensures rows == RowsFor(listings)
  {
    var order, groups := GroupByCondition(listings);
    rows := [];
    ghost var blocks := Blocks(listings, order);
    for i := 0 to |order|
      invariant rows == Flatten(blocks[..i])
    {
      FlattenOneMore(blocks, i);
      var split := ExcludeIqrOutliers(groups[order[i]]);
      rows := rows + MetricRows(order[i], split);
    }
    assert blocks[..|order|] == blocks;
  }

  lemma {:induction false} CandidateMembers(listings: seq<Listing>, l: Listing)
    ensures l in Candidates(listings) <==> l in listings && Candidate(l)
  {
    if listings != [] {
      CandidateMembers(listings[..|listings| - 1], l);
      assert l in listings <==> l in listings[..|listings| - 1] || l == listings[|listings| - 1];
    }
  }

  lemma {:induction false} SamplesExist(listings: seq<Listing>)
    ensures Samples(listings) != [] <==> exists l :: l in listings && Eligible(l)
  {
    if listings != [] {
      SamplesExist(listings[..|listings| - 1]);
      assert forall l :: l in listings <==> l in listings[..|listings| - 1] || l == listings[|listings| - 1];
    }
  }

  lemma {:induction false} OccupiedMembers(listings: seq<Listing>, conditions: seq<string>)
    requires Distinct(conditions)
    ensures Distinct(Occupied(listings, conditions))
    ensures forall c :: c in Occupied(listings, conditions) <==> c in conditions && SamplesFor(listings, c) != []
  {
    if conditions != [] {
      var init, last := conditions[..|conditions| - 1], conditions[|conditions| - 1];
      OccupiedMembers(listings, init);
      assert forall c :: c in conditions <==> c in init || c == last;
    }
  }

  /** The conditions reported are exactly those of the listings that have a condition and a price
      and can be converted. */
  lemma ConditionsAreUsable(listings: seq<Listing>, condition: string)
    ensures Distinct(Conditions(listings))
    ensures condition in Conditions(listings) <==> exists l :: l in listings && Eligible(l) && ByCondition()(l) == condition
  {
    var candidates := Candidates(listings);
    var g := Group(candidates, ByCondition(), condition);
    KeysAreDistinct(candidates, ByCondition());
    OccupiedMembers(listings, Touched(listings));
    KeysAreThoseOfRows(candidates, ByCondition(), condition);
    SamplesExist(g);
    forall l ensures l in g <==> l in listings && Candidate(l) && ByCondition()(l) == condition {
      GroupMembers(candidates, ByCondition(), condition, l);
      CandidateMembers(listings, l);
    }
  }

  /** Groups that stayed empty add no rows. */
  lemma {:induction false} EmptyGroupsAddNothing(listings: seq<Listing>, conditions: seq<string>)
    ensures Flatten(Blocks(listings, conditions)) == Flatten(Blocks(listings, Occupied(listings, conditions)))
  {
    if conditions != [] {
      var init, c := conditions[..|conditions| - 1], conditions[|conditions| - 1];
      EmptyGroupsAddNothing(listings, init);
      var blocks, kept := Blocks(listings, conditions), Blocks(listings, Occupied(listings, init));
      assert blocks[..|blocks| - 1] == Blocks(listings, init);
      if SamplesFor(listings, c) == [] {
        EmptyGroupHasNoRows(c);
      } else {
        var more := Blocks(listings, Occupied(listings, conditions));
        assert more[..|more| - 1] == kept;
      }
    }
  }

  lemma EmptyGroupHasNoRows(condition: string)
    ensures MetricRows(condition, SplitOf([])) == []
  {
  }

  lemma {:induction false} SamplesArePriced(listings: seq<Listing>)
    ensures forall s :: s in Samples(listings) ==> TotalPrice(s).Some?
  {
    if listings != [] {
      SamplesArePriced(listings[..|listings| - 1]);
    }
  }

  lemma {:induction false} PricesOfPriced(samples: seq<Sample>)
    requires forall s :: s in samples ==> TotalPrice(s).Some?
    ensures |Prices(samples)| == |samples|
  {
    if samples != [] {
      assert samples[|samples| - 1] in samples;
      PricesOfPriced(samples[..|samples| - 1]);
    }
  }

  /** No condition with a usable listing is dropped: the filter always leaves a price. */
  lemma SomethingSurvives(listings: seq<Listing>, condition: string)
    requires condition in Conditions(listings)
    ensures Prices(SplitFor(listings, condition).included) != []
  {
    var samples := SamplesFor(listings, condition);
    KeysAreDistinct(Candidates(listings), ByCondition());
    OccupiedMembers(listings, Touched(listings));
    SamplesArePriced(Group(Candidates(listings), ByCondition(), condition));
    PricesOfPriced(samples);
    if |Prices(samples)| >= IQR_MIN_SAMPLE_SIZE {
      var _, _ := KeptPricesAreCentral(samples);
    }
  }

  const WIDTH := 5

  lemma {:induction false} FlattenAt<T>(blocks: seq<seq<T>>, c: nat, i: nat)
    requires forall b :: b in blocks ==> |b| == WIDTH
    requires c < |blocks| && i < WIDTH
    ensures |Flatten(blocks)| == WIDTH * |blocks| && Flatten(blocks)[WIDTH * c + i] == blocks[c][i]
  {
    var init, last := blocks[..|blocks| - 1], blocks[|blocks| - 1];
    assert last in blocks && forall b :: b in init ==> b in blocks;
    if init != [] {
      FlattenAt(init, if c < |init| then c else 0, i);
    }
  }

  /** The five rows of a condition whose kept listings have a price. */
  lemma MetricRowsAreOrdered(condition: string, split: Split, i: nat)
    requires Prices(split.included) != [] && i < |METRICS|
    ensures
      var rows := MetricRows(condition, split);
      && |rows| == WIDTH
      && rows[i].condition == condition
      && rows[i].metric == METRICS[i]
      && Split(rows[i].included, rows[i].excluded, rows[i].fences) == split
      && rows[i].sampleSize == |Prices(split.included)|
      && rows[0].value <= rows[i].value <= rows[3].value
  {
    MetricsAreOrdered(Prices(split.included), METRICS[i]);
  }

  lemma BlockWidths(listings: seq<Listing>)
    ensures forall b :: b in Blocks(listings, Conditions(listings)) ==> |b| == WIDTH
  {
    var conditions := Conditions(listings);
    var blocks := Blocks(listings, conditions);
    forall b | b in blocks ensures |b| == WIDTH {
      var c :| 0 <= c < |blocks| && blocks[c] == b;
      SomethingSurvives(listings, conditions[c]);
      MetricRowsAreOrdered(conditions[c], SplitFor(listings, conditions[c]), 0);
    }
  }

  /** The build has one row for each usable condition and metric, in that order; it was computed from
      the kept listings of the condition, and lies between the low and the high stored with it. */
  lemma RowsAreComplete(listings: seq<Listing>, c: nat, i: nat)
    requires c < |Conditions(listings)| && i < |METRICS|
    ensures Distinct(Conditions(listings)) && |RowsFor(listings)| == WIDTH * |Conditions(listings)|
    ensures
      var condition := Conditions(listings)[c];
      var rows := RowsFor(listings);
      var row := rows[WIDTH * c + i];
      && row.condition == condition
      && row.metric == METRICS[i]
      && Split(row.included, row.excluded, row.fences) == SplitFor(listings, condition)
      && row.sampleSize == |Prices(row.included)| > 0
      && rows[WIDTH * c].value <= row.value <= rows[WIDTH * c + 3].value
  {
    var condition := Conditions(listings)[c];
    var blocks := Blocks(listings, Conditions(listings));
    ConditionsAreUsable(listings, condition);
    EmptyGroupsAddNothing(listings, Touched(listings));
    BlockWidths(listings);
    FlattenAt(blocks, c, 0);
    FlattenAt(blocks, c, i);
    FlattenAt(blocks, c, 3);
    SomethingSurvives(listings, condition);
    MetricRowsAreOrdered(condition, SplitFor(listings, condition), i);
  }
}
