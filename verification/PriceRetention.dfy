/** Price observations, compacted into weekly and monthly rollups before the raw rows are deleted. */
module PriceRetention {
  import opened Grouping
  import opened Rounding
  import opened SlidingWindow

  datatype Series = Series(legoSet: int, marketplace: int, condition: string, currency: string, metric: string)

  /** A UTC calendar date: its ordinal (day 1 is a Monday) and its day of the month. */
  datatype Date = Date(ordinal: int, dayOfMonth: int)

  /** A row of the price table; money is in cents. */
  datatype Observation = Observation(id: int, series: Series, at: int, date: Date, createdAt: int, value: int, sampleSize: int)

  datatype Period = Weekly | Monthly

  datatype Key = Key(series: Series, period: Period, start: int)

  datatype Rollup = Rollup(average: int, low: int, high: int, latest: int, averageSampleSize: int, count: nat, latestAt: int)

  datatype Db = Db(raw: set<Observation>, rollups: map<Key, Rollup>)

  // ---------------------------------------------------------------- building rollups

  function Weekday(d: Date): (w: int)
    ensures 0 <= w < 7
  {
    (d.ordinal + 6) % 7
  }

  /** `_period_start`: the Monday of the week, or the first of the month. */
  function PeriodStart(d: Date, period: Period): int {
    match period
    case Weekly => d.ordinal - Weekday(d)
    case Monthly => d.ordinal - (d.dayOfMonth - 1)
  }

  /** A week starts on its Monday, one of the ordinals 1, 8, 15, .., at most six days before; a month on
      the day numbered 1, for every day of it. */
  lemma PeriodStartIsExact(d: Date, first: int, k: nat)
    ensures var p := PeriodStart(d, Weekly); p <= d.ordinal <= p + 6 && (p - 1) % 7 == 0
    ensures PeriodStart(Date(first + k, 1 + k), Monthly) == first
  {
  }

  function KeyOf(o: Observation, period: Period): Key {
    Key(o.series, period, PeriodStart(o.date, period))
  }

  function ByPeriod(period: Period): Observation -> Key { o => KeyOf(o, period) }
  function ByValue(): Observation -> int { (o: Observation) => o.value }
  function BySampleSize(): Observation -> int { (o: Observation) => o.sampleSize }

  function Low(g: seq<Observation>): int
    requires g != []
  {
    if |g| == 1 || g[|g| - 1].value < Low(g[..|g| - 1]) then g[|g| - 1].value else Low(g[..|g| - 1])
  }

  function High(g: seq<Observation>): int
    requires g != []
  {
    if |g| == 1 || g[|g| - 1].value > High(g[..|g| - 1]) then g[|g| - 1].value else High(g[..|g| - 1])
  }

  /** The aggregate of one group of observations, oldest first. */
  function Summarise(g: seq<Observation>): Rollup
    requires g != []
  {
    Rollup(HalfUp(Total(g, ByValue()), |g|), Low(g), High(g), g[|g| - 1].value,
           HalfUp(Total(g, BySampleSize()), |g|), |g|, g[|g| - 1].at)
  }

  lemma {:induction false} LowAndHigh(g: seq<Observation>)
    requires g != []
    ensures forall o :: o in g ==> Low(g) <= o.value <= High(g)
    ensures (exists o :: o in g && o.value == Low(g)) && (exists o :: o in g && o.value == High(g))
  {
    var init, x := g[..|g| - 1], g[|g| - 1];
    assert x in g;
    if init != [] {
      LowAndHigh(init);
      assert forall o :: o in g <==> o in init || o == x;
    }
  }

  /** Oldest first, as the query and the in-place sort order them. */
  ghost predicate Ordered(rows: seq<Observation>) {
    forall i, j :: 0 <= i < j < |rows| ==>
      rows[i].at < rows[j].at || (rows[i].at == rows[j].at && rows[i].createdAt <= rows[j].createdAt)
  }

  /** The sort inside `_build_rollups` finds every group in order. */
  lemma GroupIsOrdered(rows: seq<Observation>, period: Period, k: Key)
    requires Ordered(rows)
    ensures Ordered(Group(rows, ByPeriod(period), k))
  {
    var g := Group(rows, ByPeriod(period), k);
    forall i, j | 0 <= i < j < |g|
      ensures g[i].at < g[j].at || (g[i].at == g[j].at && g[i].createdAt <= g[j].createdAt)
    {
      var _, _ := GroupKeepsOrder(rows, ByPeriod(period), k, i, j);
    }
  }

  /** What a rollup says of its group: its extremes are reached, its latest value is that of
      the last observation, and its rounded average lies between the extremes. */
  lemma RollupIsHonest(rows: seq<Observation>, period: Period, k: Key)
    requires Ordered(rows) && Group(rows, ByPeriod(period), k) != []
    ensures
      var g := Group(rows, ByPeriod(period), k);
      var r := Summarise(g);
      && Sound(r)
      && (forall o :: o in g ==> r.low <= o.value <= r.high && o.at <= r.latestAt)
      && (exists o :: o in g && o.value == r.low)
      && (exists o :: o in g && o.value == r.high)
      && (exists o :: o in g && o.value == r.latest && o.at == r.latestAt)
  {
    var g := Group(rows, ByPeriod(period), k);
    LowAndHigh(g);
    SummaryIsSound(g);
    GroupIsOrdered(rows, period, k);
    assert g[|g| - 1] in g;
  }

  /** What every stored rollup satisfies. */
  ghost predicate Sound(r: Rollup) {
    r.low <= r.latest <= r.high && r.low <= r.average <= r.high && r.count > 0
  }

  lemma SummaryIsSound(g: seq<Observation>)
    requires g != []
    ensures Sound(Summarise(g))
  {
    LowAndHigh(g);
    assert g[|g| - 1] in g;
    TotalBetween(g, ByValue(), Low(g), High(g));
    var n, sum := |g|, Total(g, ByValue());
    HalfUpExact(Low(g), 1);
    HalfUpExact(High(g), 1);
    HalfUpMonotone(Low(g), 1, sum, n);
    HalfUpMonotone(sum, n, High(g), 1);
  }

  /** `_build_rollups`: one aggregate for every group of the period. */
  method BuildRollups(rows: seq<Observation>, period: Period) returns (built: seq<(Key, Rollup)>)
    ensures |built| == |Keys(rows, ByPeriod(period))|
    ensures forall i :: 0 <= i < |built| ==>
      && built[i].0 == Keys(rows, ByPeriod(period))[i]
      && Group(rows, ByPeriod(period), built[i].0) != []
      && built[i].1 == Summarise(Group(rows, ByPeriod(period), built[i].0))
  {
    var order, groups := GroupRows(rows, ByPeriod(period));
    built := [];
    for i := 0 to |order|
      invariant |built| == i
      invariant forall j :: 0 <= j < i ==>
        && built[j].0 == order[j]
        && Group(rows, ByPeriod(period), order[j]) != []
        && built[j].1 == Summarise(Group(rows, ByPeriod(period), order[j]))
    {
      KeysAreThoseOfRows(rows, ByPeriod(period), order[i]);
      built := built + [(order[i], Summarise(groups[order[i]]))];
    }
  }

  // ---------------------------------------------------------------- pruning

  function KeySet(rows: seq<Observation>, period: Period): set<Key> {
    set k | k in Keys(rows, ByPeriod(period))
  }

  /** The rollup table after one period's aggregates were upserted: an upsert replaces. */
  function Compacted(rollups: map<Key, Rollup>, rows: seq<Observation>, period: Period): map<Key, Rollup> {
    map k | k in rollups.Keys + KeySet(rows, period) ::
      if k in KeySet(rows, period) then
        KeysAreThoseOfRows(rows, ByPeriod(period), k);
        Summarise(Group(rows, ByPeriod(period), k))
      else rollups[k]
  }

  /** What `get_price_snapshots_before` returns: the expired rows, oldest first. */
  ghost predicate IsQueryResult(rows: seq<Observation>, raw: set<Observation>, cutoff: int) {
    && Distinct(rows)
    && Ordered(rows)
    && (forall o :: o in rows <==> o in raw && o.at < cutoff)
  }

  function Pruned(db: Db, rows: seq<Observation>, cutoff: int): Db {
    Db((set o | o in db.raw && o.at >= cutoff), Compacted(Compacted(db.rollups, rows, Weekly), rows, Monthly))
  }

  /** The table while the aggregates of some keys are stored. */
  ghost predicate Upserted(before: map<Key, Rollup>, done: seq<Key>, rows: seq<Observation>, period: Period, now: map<Key, Rollup>) {
    && (forall k :: k in now <==> k in before || k in done)
    && (forall k :: k in done ==> IsRollupOf(now[k], Group(rows, ByPeriod(period), k)))
    && (forall k :: k in before && k !in done ==> now[k] == before[k])
  }

  ghost predicate IsRollupOf(r: Rollup, g: seq<Observation>) {
    g != [] && r == Summarise(g)
  }

  lemma UpsertedOneMore(before: map<Key, Rollup>, keys: seq<Key>, i: nat, rows: seq<Observation>, period: Period,
                        now: map<Key, Rollup>, r: Rollup)
    requires i < |keys| && Upserted(before, keys[..i], rows, period, now)
    requires IsRollupOf(r, Group(rows, ByPeriod(period), keys[i]))
    ensures Upserted(before, keys[..i + 1], rows, period, now[keys[i] := r])
  {
    assert keys[..i + 1] == keys[..i] + [keys[i]];
  }

  lemma UpsertedAll(before: map<Key, Rollup>, rows: seq<Observation>, period: Period, now: map<Key, Rollup>)
    requires Upserted(before, Keys(rows, ByPeriod(period)), rows, period, now)
    ensures now == Compacted(before, rows, period)
  {
  }

  class PriceStore {
    var raw: set<Observation>
    var rollups: map<Key, Rollup>

    constructor ()
      ensures Contents() == Db({}, map[])
    {
      raw, rollups := {}, map[];
    }

    function Contents(): Db
      reads this
    {
      Db(raw, rollups)
    }

    /** `upsert_price_snapshot_rollup`. */
    method Upsert(k: Key, r: Rollup)
      modifies this`rollups
      ensures rollups == old(rollups)[k := r]
    {
      rollups := rollups[k := r];
    }

    method Compact(rows: seq<Observation>, period: Period)
      modifies this`rollups
      ensures rollups == Compacted(old(rollups), rows, period)
    {
      var built := BuildRollups(rows, period);
      ghost var keys := Keys(rows, ByPeriod(period));
      for i := 0 to |built|
        invariant Upserted(old(rollups), keys[..i], rows, period, rollups)
      {
        UpsertedOneMore(old(rollups), keys, i, rows, period, rollups, built[i].1);
        Upsert(built[i].0, built[i].1);
      }
      assert keys[..|built|] == keys;
      UpsertedAll(old(rollups), rows, period, rollups);
    }

    /** `prune_expired_price_snapshots`, on the rows the query returned. */
    method Prune(rows: seq<Observation>, cutoff: int) returns (deleted: nat)
      requires IsQueryResult(rows, raw, cutoff)
      modifies this
      ensures Contents() == Pruned(old(Contents()), rows, cutoff)
      ensures deleted == |rows|
    {
      Compact(rows, Weekly);
      Compact(rows, Monthly);
      DistinctLength(rows, set o | o in raw && o.at < cutoff);
      deleted := |set o | o in raw && o.at < cutoff|;
      raw := set o | o in raw && o.at >= cutoff;
    }
  }

  lemma {:induction false} DistinctLength<T>(s: seq<T>, elements: set<T>)
    requires Distinct(s) && forall x :: x in s <==> x in elements
    ensures |s| == |elements|
  {
    if s != [] {
      var init, x := s[..|s| - 1], s[|s| - 1];
      assert forall y :: y in s <==> y in init || y == x;
      assert x !in init;
      DistinctLength(init, elements - {x});
    }
  }

  // ---------------------------------------------------------------- compaction is a partition

  function One(): Observation -> int { o => 1 }

  lemma {:induction false} TotalOnes(rows: seq<Observation>)
    ensures Total(rows, One()) == |rows|
  {
    if rows != [] {
      TotalOnes(rows[..|rows| - 1]);
    }
  }

  /** Both periods compact the same rows: each has one rollup for every group, and the rollups'
      counts add up to the number of rows. */
  lemma CompactionPartitions(rollups: map<Key, Rollup>, rows: seq<Observation>, period: Period)
    ensures CountsOf(Compacted(rollups, rows, period), Keys(rows, ByPeriod(period))) == |rows|
    ensures Distinct(Keys(rows, ByPeriod(period)))
    ensures forall k :: k in Keys(rows, ByPeriod(period)) <==> exists o :: o in rows && KeyOf(o, period) == k
  {
    var keys := Keys(rows, ByPeriod(period));
    GroupsPartition(rows, ByPeriod(period), One());
    TotalOnes(rows);
    KeysAreDistinct(rows, ByPeriod(period));
    forall k ensures k in keys <==> exists o :: o in rows && KeyOf(o, period) == k {
      KeysAreThoseOfRows(rows, ByPeriod(period), k);
      assert forall o :: ByPeriod(period)(o) == KeyOf(o, period);
    }
    CountsAreGroupSizes(rollups, rows, period, keys);
  }

  /** The counts of the listed rollups, added up. */
  function CountsOf(rollups: map<Key, Rollup>, keys: seq<Key>): int
    requires forall k :: k in keys ==> k in rollups
  {
    if keys == [] then 0 else CountsOf(rollups, keys[..|keys| - 1]) + rollups[keys[|keys| - 1]].count
  }

  lemma {:induction false} CountsAreGroupSizes(rollups: map<Key, Rollup>, rows: seq<Observation>, period: Period, keys: seq<Key>)
    requires forall k :: k in keys ==> k in KeySet(rows, period)
    ensures CountsOf(Compacted(rollups, rows, period), keys) == TotalOfGroups(keys, rows, ByPeriod(period), One())
  {
    if keys != [] {
      CountsAreGroupSizes(rollups, rows, period, keys[..|keys| - 1]);
      TotalOnes(Group(rows, ByPeriod(period), keys[|keys| - 1]));
    }
  }

  // ---------------------------------------------------------------- the reader's observation count

  /** Counts added up over a set of rollups. */
  ghost function Counts(rollups: map<Key, Rollup>, ks: set<Key>): int
    requires ks <= rollups.Keys
  {
    if ks == {} then 0 else
      var k :| k in ks;
      rollups[k].count + Counts(rollups, ks - {k})
  }

  lemma {:induction false} CountsTake(rollups: map<Key, Rollup>, ks: set<Key>, k: Key)
    requires ks <= rollups.Keys && k in ks
    ensures Counts(rollups, ks) == rollups[k].count + Counts(rollups, ks - {k})
    decreases |ks|
  {
    var j :| j in ks && Counts(rollups, ks) == rollups[j].count + Counts(rollups, ks - {j});
    if j != k {
      CountsTake(rollups, ks - {j}, k);
      CountsTake(rollups, ks - {k}, j);
      assert ks - {j} - {k} == ks - {k} - {j};
    }
  }

  lemma {:induction false} CountsAgree(m: map<Key, Rollup>, m': map<Key, Rollup>, ks: set<Key>)
    requires ks <= m.Keys && ks <= m'.Keys && forall k :: k in ks ==> m[k] == m'[k]
    ensures Counts(m, ks) == Counts(m', ks)
    decreases |ks|
  {
    if k :| k in ks {
      CountsTake(m, ks, k);
      CountsTake(m', ks, k);
      CountsAgree(m, m', ks - {k});
    }
  }

  lemma {:induction false} CountsUnion(m: map<Key, Rollup>, a: set<Key>, b: set<Key>)
    requires a <= m.Keys && b <= m.Keys && a !! b
    ensures Counts(m, a + b) == Counts(m, a) + Counts(m, b)
    decreases |a|
  {
    if k :| k in a {
      CountsTake(m, a, k);
      CountsTake(m, a + b, k);
      assert a + b - {k} == (a - {k}) + b;
      CountsUnion(m, a - {k}, b);
    } else {
      assert a + b == b;
    }
  }

  lemma {:induction false} CountsPositive(m: map<Key, Rollup>, ks: set<Key>)
    requires ks <= m.Keys && forall k :: k in ks ==> m[k].count > 0
    ensures Counts(m, ks) >= 0 && (Counts(m, ks) == 0 <==> ks == {})
    decreases |ks|
  {
    if k :| k in ks {
      CountsTake(m, ks, k);
      CountsPositive(m, ks - {k});
    }
  }

  /** The rows and rollups a reader asks for: any choice of series. */
  type Selection = Series -> bool

  function SelectedRows(raw: set<Observation>, sel: Selection): set<Observation> {
    set o | o in raw && sel(o.series)
  }

  function SelectedMonths(rollups: map<Key, Rollup>, sel: Selection): set<Key> {
    set k | k in rollups && k.period == Monthly && sel(k.series)
  }

  /** The analytics' observation_count: raw rows, and what the monthly rollups stand for. */
  ghost function ObservationCount(db: Db, sel: Selection): int {
    |SelectedRows(db.raw, sel)| + Counts(db.rollups, SelectedMonths(db.rollups, sel))
  }

  /** The selected months that have a rollup already and are compacted once more. */
  function Recompacted(db: Db, rows: seq<Observation>, sel: Selection): set<Key> {
    SelectedMonths(db.rollups, sel) * KeySet(rows, Monthly)
  }

  function IfSelected(sel: Selection): Observation -> int { (o: Observation) => if sel(o.series) then 1 else 0 }

  lemma {:induction false} TotalOfOneSeries(g: seq<Observation>, sel: Selection, series: Series)
    requires forall o :: o in g ==> o.series == series
    ensures Total(g, IfSelected(sel)) == if sel(series) then |g| else 0
  {
    if g != [] {
      TotalOfOneSeries(g[..|g| - 1], sel, series);
    }
  }

  lemma {:induction false} TotalOfSelected(rows: seq<Observation>, sel: Selection, elements: set<Observation>)
    requires Distinct(rows) && forall o :: o in rows <==> o in elements
    ensures Total(rows, IfSelected(sel)) == |SelectedRows(elements, sel)|
  {
    if rows != [] {
      var init, x := rows[..|rows| - 1], rows[|rows| - 1];
      assert forall y :: y in rows <==> y in init || y == x;
      assert x !in init;
      TotalOfSelected(init, sel, elements - {x});
      assert SelectedRows(elements - {x}, sel) == SelectedRows(elements, sel) - {x};
    }
  }

  function Chosen(keys: seq<Key>, sel: Selection): set<Key> {
    set k | k in keys && sel(k.series)
  }

  lemma {:induction false} CountsOfChosen(m: map<Key, Rollup>, rows: seq<Observation>, keys: seq<Key>, sel: Selection)
    requires Distinct(keys) && forall k :: k in keys ==> k in m && m[k].count == |Group(rows, ByPeriod(Monthly), k)|
    ensures Counts(m, Chosen(keys, sel)) == TotalOfGroups(keys, rows, ByPeriod(Monthly), IfSelected(sel))
  {
    if keys != [] {
      var init, k := keys[..|keys| - 1], keys[|keys| - 1];
      assert forall c :: c in keys <==> c in init || c == k;
      CountsOfChosen(m, rows, init, sel);
      var g := Group(rows, ByPeriod(Monthly), k);
      forall o | o in g ensures o.series == k.series {
        GroupMembers(rows, ByPeriod(Monthly), k, o);
      }
      TotalOfOneSeries(g, sel, k.series);
      if sel(k.series) {
        assert k !in init;
        CountsTake(m, Chosen(keys, sel), k);
        assert Chosen(keys, sel) - {k} == Chosen(init, sel);
      } else {
        assert Chosen(keys, sel) == Chosen(init, sel);
      }
    }
  }

  /** What the compacted months count is the number of selected rows that expired. */
  lemma CompactedCounts(db: Db, rows: seq<Observation>, cutoff: int, sel: Selection)
    requires IsQueryResult(rows, db.raw, cutoff)
    ensures
      var m := Pruned(db, rows, cutoff).rollups;
      var keys := Keys(rows, ByPeriod(Monthly));
      Chosen(keys, sel) <= m.Keys && Counts(m, Chosen(keys, sel)) == |SelectedRows((set o | o in rows), sel)|
  {
    var keys := Keys(rows, ByPeriod(Monthly));
    KeysAreDistinct(rows, ByPeriod(Monthly));
    CountsOfChosen(Pruned(db, rows, cutoff).rollups, rows, keys, sel);
    GroupsPartition(rows, ByPeriod(Monthly), IfSelected(sel));
    TotalOfSelected(rows, sel, set o | o in rows);
  }

  lemma MonthlyKeysAreMonthly(rows: seq<Observation>, k: Key)
    ensures k in KeySet(rows, Monthly) ==> k.period == Monthly
    ensures k in KeySet(rows, Weekly) ==> k.period == Weekly
  {
    KeysAreThoseOfRows(rows, ByPeriod(Monthly), k);
    KeysAreThoseOfRows(rows, ByPeriod(Weekly), k);
  }

  lemma RawRowsAfter(db: Db, rows: seq<Observation>, cutoff: int, sel: Selection)
    requires IsQueryResult(rows, db.raw, cutoff)
    ensures |SelectedRows(Pruned(db, rows, cutoff).raw, sel)|
         == |SelectedRows(db.raw, sel)| - |SelectedRows((set o | o in rows), sel)|
  {
    var kept, expired := SelectedRows(Pruned(db, rows, cutoff).raw, sel), SelectedRows((set o | o in rows), sel);
    assert SelectedRows(db.raw, sel) == kept + expired;
    assert kept !! expired;
  }

  /** The monthly rollups after a prune: the compacted months, and the others as they were. */
  lemma MonthsAfter(db: Db, rows: seq<Observation>, cutoff: int, sel: Selection)
    ensures
      var m := Pruned(db, rows, cutoff).rollups;
      var others := SelectedMonths(db.rollups, sel) - Recompacted(db, rows, sel);
      && SelectedMonths(m, sel) == Chosen(Keys(rows, ByPeriod(Monthly)), sel) + others
      && Chosen(Keys(rows, ByPeriod(Monthly)), sel) !! others
      && forall k :: k in others ==> k in m && m[k] == db.rollups[k]
  {
    var m := Pruned(db, rows, cutoff).rollups;
    var others := SelectedMonths(db.rollups, sel) - Recompacted(db, rows, sel);
    forall k ensures k in SelectedMonths(m, sel) <==> k in Chosen(Keys(rows, ByPeriod(Monthly)), sel) + others {
      MonthlyKeysAreMonthly(rows, k);
    }
    forall k | k in others ensures k in m && m[k] == db.rollups[k] {
      MonthlyKeysAreMonthly(rows, k);
    }
  }

  lemma CountsMove(m: map<Key, Rollup>, m': map<Key, Rollup>, months: set<Key>, again: set<Key>, compacted: set<Key>)
    requires months <= m.Keys && again <= months && compacted <= m'.Keys && compacted !! months - again
    requires forall k :: k in months - again ==> k in m' && m'[k] == m[k]
    ensures Counts(m', compacted + (months - again)) == Counts(m', compacted) + Counts(m, months) - Counts(m, again)
  {
    CountsUnion(m', compacted, months - again);
    CountsAgree(m, m', months - again);
    CountsUnion(m, again, months - again);
    assert again + (months - again) == months;
  }

  /** A prune moves the expired rows into monthly rollups; the reader's count changes by
      exactly what the replaced rollups had stood for. */
  lemma PruneCount(db: Db, rows: seq<Observation>, cutoff: int, sel: Selection)
    requires IsQueryResult(rows, db.raw, cutoff)
    ensures ObservationCount(Pruned(db, rows, cutoff), sel)
         == ObservationCount(db, sel) - Counts(db.rollups, Recompacted(db, rows, sel))
  {
    var m := Pruned(db, rows, cutoff).rollups;
    var compacted := Chosen(Keys(rows, ByPeriod(Monthly)), sel);
    RawRowsAfter(db, rows, cutoff, sel);
    CompactedCounts(db, rows, cutoff, sel);
    MonthsAfter(db, rows, cutoff, sel);
    CountsMove(db.rollups, m, SelectedMonths(db.rollups, sel), Recompacted(db, rows, sel), compacted);
  }

  /** No selected row expires in a month that has a rollup already. */
  ghost predicate MonthsAreNew(db: Db, rows: seq<Observation>, sel: Selection) {
    forall o :: o in rows && sel(o.series) ==> KeyOf(o, Monthly) !in db.rollups
  }

  /** Exactly then the prune leaves the reader's count as it was; otherwise it falls. */
  lemma CountSurvivesExactly(db: Db, rows: seq<Observation>, cutoff: int, sel: Selection)
    requires IsQueryResult(rows, db.raw, cutoff) && AllSound(db.rollups)
    ensures ObservationCount(Pruned(db, rows, cutoff), sel) <= ObservationCount(db, sel)
    ensures ObservationCount(Pruned(db, rows, cutoff), sel) == ObservationCount(db, sel) <==> MonthsAreNew(db, rows, sel)
  {
    PruneCount(db, rows, cutoff, sel);
    var again := Recompacted(db, rows, sel);
    forall k | k in again ensures db.rollups[k].count > 0 {
      assert Sound(db.rollups[k]);
    }
    CountsPositive(db.rollups, again);
    if k :| k in again {
      KeysAreThoseOfRows(rows, ByPeriod(Monthly), k);
      var o :| o in rows && ByPeriod(Monthly)(o) == k;
      assert KeyOf(o, Monthly) in db.rollups;
    } else {
      forall o | o in rows && sel(o.series) ensures KeyOf(o, Monthly) !in db.rollups {
        KeysAreThoseOfRows(rows, ByPeriod(Monthly), KeyOf(o, Monthly));
        assert ByPeriod(Monthly)(o) == KeyOf(o, Monthly);
        assert KeyOf(o, Monthly) !in again;
      }
    }
  }

  ghost predicate AllSound(rollups: map<Key, Rollup>) {
    forall k :: k in rollups ==> Sound(rollups[k])
  }

  // ---------------------------------------------------------------- whole runs

  datatype Step = Observed(o: Observation) | Prunes(rows: seq<Observation>, cutoff: int)

  ghost function Next(db: Db, step: Step): Db {
    match step
    case Observed(o) => db.(raw := db.raw + {o})
    case Prunes(rows, cutoff) => if IsQueryResult(rows, db.raw, cutoff) then Pruned(db, rows, cutoff) else db
  }

  ghost function Run(steps: History<Step>): Db {
    match steps
    case Start => Db({}, map[])
    case Then(before, step) => Next(Run(before), step)
  }

  /** How many selected rows were ever stored. */
  ghost function Recorded(steps: History<Step>, sel: Selection): nat {
    match steps
    case Start => 0
    case Then(before, step) =>
      Recorded(before, sel) + if step.Observed? && step.o !in Run(before).raw && sel(step.o.series) then 1 else 0
  }

  /** What replaced monthly rollups had counted. */
  ghost function Forgotten(steps: History<Step>, sel: Selection): int {
    match steps
    case Start => 0
    case Then(before, step) =>
      var db := Run(before);
      Forgotten(before, sel) +
      if step.Prunes? && IsQueryResult(step.rows, db.raw, step.cutoff)
      then Counts(db.rollups, Recompacted(db, step.rows, sel)) else 0
  }

  lemma {:induction false} RunStaysSound(steps: History<Step>)
    ensures AllSound(Run(steps).rollups)
  {
    if steps.Then? {
      RunStaysSound(steps.before);
      if steps.latest.Prunes? {
        CompactionStaysSound(Run(steps.before).rollups, steps.latest.rows, Weekly);
        CompactionStaysSound(Compacted(Run(steps.before).rollups, steps.latest.rows, Weekly), steps.latest.rows, Monthly);
      }
    }
  }

  lemma CompactionStaysSound(rollups: map<Key, Rollup>, rows: seq<Observation>, period: Period)
    requires AllSound(rollups)
    ensures AllSound(Compacted(rollups, rows, period))
  {
    var m := Compacted(rollups, rows, period);
    forall k | k in m ensures Sound(m[k]) {
      if k in KeySet(rows, period) {
        KeysAreThoseOfRows(rows, ByPeriod(period), k);
        SummaryIsSound(Group(rows, ByPeriod(period), k));
      }
    }
  }

  lemma ObservedCount(db: Db, o: Observation, sel: Selection)
    ensures ObservationCount(Next(db, Observed(o)), sel)
         == ObservationCount(db, sel) + if o !in db.raw && sel(o.series) then 1 else 0
  {
    assert SelectedRows(db.raw + {o}, sel) == SelectedRows(db.raw, sel) + if sel(o.series) then {o} else {};
    if o in db.raw {
      assert db.raw + {o} == db.raw;
    } else {
      assert o !in SelectedRows(db.raw, sel);
    }
  }

  lemma ForgottenIsCounted(db: Db, rows: seq<Observation>, sel: Selection)
    requires AllSound(db.rollups)
    ensures 0 <= Counts(db.rollups, Recompacted(db, rows, sel))
  {
    forall k | k in Recompacted(db, rows, sel) ensures db.rollups[k].count > 0 {
      assert Sound(db.rollups[k]);
    }
    CountsPositive(db.rollups, Recompacted(db, rows, sel));
  }

  /** Over any run, what a reader counts and what replaced rollups had counted add up to
      everything that was ever recorded. */
  lemma {:induction false} CountIsConserved(steps: History<Step>, sel: Selection)
    ensures ObservationCount(Run(steps), sel) + Forgotten(steps, sel) == Recorded(steps, sel)
    ensures 0 <= Forgotten(steps, sel)
  {
    match steps
    case Start =>
      assert SelectedRows({}, sel) == {} && SelectedMonths(map[], sel) == {};
    case Then(before, step) =>
      var db := Run(before);
      CountIsConserved(before, sel);
      match step {
        case Observed(o) => ObservedCount(db, o, sel);
        case Prunes(rows, cutoff) =>
          if IsQueryResult(rows, db.raw, cutoff) {
            RunStaysSound(before);
            PruneCount(db, rows, cutoff, sel);
            ForgottenIsCounted(db, rows, sel);
          }
      }
  }

  // ---------------------------------------------------------------- a month that straddles two cutoffs

  lemma PruneSingle(db: Db, o: Observation, cutoff: int)
    requires db.raw == {o} && o.at < cutoff
    ensures IsQueryResult([o], db.raw, cutoff)
    ensures KeySet([o], Monthly) == {KeyOf(o, Monthly)}
    ensures
      var db' := Pruned(db, [o], cutoff);
      db'.raw == {} && KeyOf(o, Monthly) in db'.rollups && db'.rollups[KeyOf(o, Monthly)].count == 1
  {
    var k := KeyOf(o, Monthly);
    Snoc([], o, ByPeriod(Monthly), k, One());
    assert [] + [o] == [o];
    assert Keys([o], ByPeriod(Monthly)) == [k];
    assert k in KeySet([o], Monthly);
  }

  const STRADDLING := Series(1, 1, "new", "USD", "fair_market_value")
  const EARLIER := Observation(1, STRADDLING, 100, Date(739000, 2), 100, 5000, 4)
  const LATER := Observation(2, STRADDLING, 200, Date(739001, 3), 200, 7000, 4)

  lemma FirstPrune(sel: Selection, first: History<Step>)
    requires sel(STRADDLING) && first == Then(Start, Observed(EARLIER))
    ensures
      var db := Run(Then(first, Prunes([EARLIER], 150)));
      && db.raw == {}
      && KeyOf(EARLIER, Monthly) in db.rollups
      && db.rollups[KeyOf(EARLIER, Monthly)].count == 1
    ensures Recorded(Then(first, Prunes([EARLIER], 150)), sel) == 1
    ensures Forgotten(Then(first, Prunes([EARLIER], 150)), sel) == 0
  {
    assert Run(first) == Db({EARLIER}, map[]) by {
      assert Run(Start) == Db({}, map[]);
    }
    PruneSingle(Run(first), EARLIER, 150);
    assert Recompacted(Run(first), [EARLIER], sel) == {};
    assert Recorded(first, sel) == 1 by {
      assert Recorded(Start, sel) == 0;
    }
    assert Forgotten(first, sel) == 0 by {
      assert Forgotten(Start, sel) == 0;
    }
  }

  lemma SecondPrune(sel: Selection, pruned: History<Step>)
    requires sel(STRADDLING) && Run(pruned).raw == {}
    requires KeyOf(LATER, Monthly) in Run(pruned).rollups && Run(pruned).rollups[KeyOf(LATER, Monthly)].count == 1
    ensures
      var steps := Then(Then(pruned, Observed(LATER)), Prunes([LATER], 250));
      && Recorded(steps, sel) == Recorded(pruned, sel) + 1
      && Forgotten(steps, sel) == Forgotten(pruned, sel) + 1
  {
    var second := Then(pruned, Observed(LATER));
    var db, k := Run(second), KeyOf(LATER, Monthly);
    assert db.raw == {LATER} && db.rollups == Run(pruned).rollups;
    PruneSingle(db, LATER, 250);
    assert Recompacted(db, [LATER], sel) == {k};
    CountsTake(db.rollups, {k}, k);
    assert Forgotten(second, sel) == Forgotten(pruned, sel);
  }

  /** Two observations of one month, pruned one by one: the second monthly rollup replaces the
      first, and the reader counts one observation where two were recorded. */
  lemma StraddlingMonth(sel: Selection) returns (steps: History<Step>)
    requires sel(STRADDLING)
    ensures Recorded(steps, sel) == 2 && ObservationCount(Run(steps), sel) == 1
  {
    var first := Then(Start, Observed(EARLIER));
    var pruned := Then(first, Prunes([EARLIER], 150));
    FirstPrune(sel, first);
    SecondPrune(sel, pruned);
    steps := Then(Then(pruned, Observed(LATER)), Prunes([LATER], 250));
    CountIsConserved(steps, sel);
  }
}
