/** Hourly portfolio valuations, rolled up to one row per user and day before the
    old raw rows are deleted. */
module ValuationRetention {
  import opened SlidingWindow

  const SECONDS_PER_HOUR := 3600
  const SECONDS_PER_DAY := 86400

  datatype Values = Values(costBasis: int, marketValue: int, gainLoss: int, currency: string)
  datatype Snapshot = Snapshot(user: int, at: int, values: Values)

  function DayOf(at: int): int { at / SECONDS_PER_DAY }
  function WindowOf(at: int): int { at / SECONDS_PER_HOUR }

  /** The key of a rollup, and of the dictionary that collects them. */
  function KeyOf(s: Snapshot): (int, int) { (s.user, DayOf(s.at)) }

  datatype Db = Db(raw: set<Snapshot>, rollups: map<(int, int), Snapshot>)

  // ---------------------------------------------------------------- recording and pruning

  predicate WindowTaken(raw: set<Snapshot>, s: Snapshot) {
    exists r :: r in raw && r.user == s.user && WindowOf(r.at) == WindowOf(s.at)
  }

  /** `create_user_valuation_snapshot`: one row per user and hourly window. */
  function Record(db: Db, s: Snapshot): Db {
    if WindowTaken(db.raw, s) then db else db.(raw := db.raw + {s})
  }

  /** `upsert_portfolio_daily_rollup`: only a later snapshot replaces a rollup. */
  function Upsert(rollups: map<(int, int), Snapshot>, s: Snapshot): map<(int, int), Snapshot> {
    var key := KeyOf(s);
    if key !in rollups || s.at > rollups[key].at then rollups[key := s] else rollups
  }

  /** The latest snapshot of a user and day in a set. */
  ghost predicate IsLatest(all: set<Snapshot>, s: Snapshot) {
    s in all && forall r :: r in all && KeyOf(r) == KeyOf(s) ==> r.at <= s.at
  }

  function Expired(raw: set<Snapshot>, cutoff: int): set<Snapshot> {
    set s | s in raw && s.at < cutoff
  }

  /** A prune replaces the expired rows by rollups: each day's latest expired row is upserted. */
  ghost predicate Pruned(db: Db, cutoff: int, db': Db) {
    var expired := Expired(db.raw, cutoff);
    && db'.raw == db.raw - expired
    && db'.rollups.Keys == db.rollups.Keys + (set s | s in expired :: KeyOf(s))
    && (forall s :: IsLatest(expired, s) ==> db'.rollups[KeyOf(s)] == Upsert(db.rollups, s)[KeyOf(s)])
    && (forall k :: k in db.rollups && (forall s :: s in expired ==> KeyOf(s) != k) ==> db'.rollups[k] == db.rollups[k])
  }

  /** A snapshot is stored unless the user has one of the same hour: the two lie in one interval from a
      full hour up to the next. */
  lemma RecordIsExact(db: Db, s: Snapshot, r: Snapshot)
    ensures Record(db, s).rollups == db.rollups
    ensures r in Record(db, s).raw <==> r in db.raw || (r == s && forall o :: o in db.raw ==> !SameHour(o, s))
  {
    forall o | o in db.raw ensures SameHour(o, s) <==> o.user == s.user && WindowOf(o.at) == WindowOf(s.at) {
      HourOf(o.at);
      HourOf(s.at);
      if SameHour(o, s) {
        var h :| HoursFrom(h, o.at) && HoursFrom(h, s.at);
      }
    }
  }

  ghost predicate SameHour(o: Snapshot, s: Snapshot) {
    o.user == s.user && exists h :: HoursFrom(h, o.at) && HoursFrom(h, s.at)
  }

  predicate HoursFrom(h: int, at: int) { 3600 * h <= at < 3600 * (h + 1) }

  lemma HourOf(at: int)
    ensures HoursFrom(WindowOf(at), at) && forall h :: HoursFrom(h, at) ==> h == WindowOf(at)
  {
  }

  /** The days of the rollups are those of the calendar: 24 of those hours. */
  lemma DayIsExact(at: int, d: int)
    ensures DayOf(at) == d <==> 24 * d <= WindowOf(at) < 24 * (d + 1)
  {
  }

  /** A prune keeps exactly the rows from the cutoff on; of the earlier ones, each user and day has a
      rollup, and a rollup gives way only to a strictly later snapshot. */
  lemma PruneIsExact(db: Db, cutoff: int, db': Db, s: Snapshot)
    requires Pruned(db, cutoff, db')
    ensures s in db'.raw <==> s in db.raw && s.at >= cutoff
    ensures s in db.raw && s.at < cutoff ==> KeyOf(s) in db'.rollups
    ensures KeyOf(s) in db.rollups && db.rollups[KeyOf(s)].at >= s.at ==> Upsert(db.rollups, s) == db.rollups
    ensures KeyOf(s) !in db.rollups || db.rollups[KeyOf(s)].at < s.at ==> Upsert(db.rollups, s) == db.rollups[KeyOf(s) := s]
  {
  }

  ghost predicate WindowsUnique(raw: set<Snapshot>) {
    forall r, s :: r in raw && s in raw && r.user == s.user && WindowOf(r.at) == WindowOf(s.at) ==> r == s
  }

  /** What `get_portfolio_snapshots_before` returns: the expired rows, by user and latest first. */
  ghost predicate IsQueryResult(rows: seq<Snapshot>, raw: set<Snapshot>, cutoff: int) {
    && (forall s :: s in rows <==> s in raw && s.at < cutoff)
    && (forall i, j :: 0 <= i < j < |rows| ==> rows[i].user <= rows[j].user)
    && (forall i, j :: 0 <= i < j < |rows| && rows[i].user == rows[j].user ==> rows[i].at >= rows[j].at)
  }

  class ValuationStore {
    var raw: set<Snapshot>
    var rollups: map<(int, int), Snapshot>

    constructor ()
      ensures Contents() == Db({}, map[])
    {
      raw, rollups := {}, map[];
    }

    function Contents(): Db
      reads this
    {
      Db(raw, rollups)
    }

    method CreateSnapshot(s: Snapshot)
      modifies this
      ensures Contents() == Record(old(Contents()), s)
    {
      if WindowTaken(raw, s) {
        return;
      }
      raw := raw + {s};
    }

    /** `aggregate_and_prune_portfolio_valuations`, on the rows the query returned. */
    method AggregateAndPrune(rows: seq<Snapshot>, cutoff: int) returns (deleted: nat)
      requires WindowsUnique(raw) && IsQueryResult(rows, raw, cutoff)
      modifies this
      ensures Pruned(old(Contents()), cutoff, Contents())
      ensures deleted == |Expired(old(raw), cutoff)|
    {
      ghost var before := rollups;
      ghost var expired := Expired(raw, cutoff);
      var latest := LatestPerUserDay(rows, expired);
      forall s | IsLatest(expired, s) ensures latest[KeyOf(s)] == s {
        LatestIsUnique(raw, cutoff, s, latest[KeyOf(s)]);
      }
      UpsertAll(latest);
      deleted := |set s | s in raw && s.at < cutoff|;
      raw := set s | s in raw && s.at >= cutoff;
    }

    method UpsertAll(latest: map<(int, int), Snapshot>)
      requires forall k :: k in latest ==> KeyOf(latest[k]) == k
      modifies this`rollups
      ensures rollups.Keys == old(rollups).Keys + latest.Keys
      ensures forall k :: k in latest ==> rollups[k] == Upsert(old(rollups), latest[k])[k]
      ensures forall k :: k in old(rollups) && k !in latest ==> rollups[k] == old(rollups)[k]
    {
      var remaining := latest.Keys;
      while remaining != {}
        invariant remaining <= latest.Keys
        invariant rollups.Keys == old(rollups).Keys + (latest.Keys - remaining)
        invariant forall k :: k in latest && k !in remaining ==> rollups[k] == Upsert(old(rollups), latest[k])[k]
        invariant forall k :: k in old(rollups) && (k !in latest || k in remaining) ==> rollups[k] == old(rollups)[k]
      {
        var k :| k in remaining;
        rollups := Upsert(rollups, latest[k]);
        remaining := remaining - {k};
      }
    }
  }

  /** The loop that keeps the first row seen of each user and day. */
  method LatestPerUserDay(rows: seq<Snapshot>, ghost expired: set<Snapshot>) returns (latest: map<(int, int), Snapshot>)
    requires forall s :: s in rows <==> s in expired
    requires forall i, j :: 0 <= i < j < |rows| && rows[i].user == rows[j].user ==> rows[i].at >= rows[j].at
    ensures latest.Keys == set s | s in expired :: KeyOf(s)
    ensures forall k :: k in latest ==> KeyOf(latest[k]) == k && IsLatest(expired, latest[k])
  {
    latest := map[];
    for i := 0 to |rows|
      invariant forall j :: 0 <= j < i ==> KeyOf(rows[j]) in latest
      invariant forall k :: k in latest ==> latest[k] in rows && KeyOf(latest[k]) == k
      invariant forall k, j :: k in latest && 0 <= j < |rows| && KeyOf(rows[j]) == k ==> rows[j].at <= latest[k].at
    {
      var key := KeyOf(rows[i]);
      if key !in latest {
        forall j | 0 <= j < |rows| && KeyOf(rows[j]) == key ensures rows[j].at <= rows[i].at {
          assert j >= i;
        }
        latest := latest[key := rows[i]];
      }
    }
    forall s | s in expired ensures KeyOf(s) in latest {
      assert s in rows;
    }
  }

  lemma LatestIsUnique(raw: set<Snapshot>, cutoff: int, s: Snapshot, t: Snapshot)
    requires WindowsUnique(raw) && KeyOf(s) == KeyOf(t)
    requires IsLatest(Expired(raw, cutoff), s) && IsLatest(Expired(raw, cutoff), t)
    ensures s == t
  {
    assert s.at == t.at;
  }

  // ---------------------------------------------------------------- what a reader recovers

  /** The rows of `list_portfolio_history`: raw rows and rollups together. */
  function Visible(db: Db): set<Snapshot> {
    db.raw + set k | k in db.rollups :: db.rollups[k]
  }

  datatype Step = Recorded(s: Snapshot) | Prunes(cutoff: int)

  /** One possible run: the database it ends in, and every snapshot that was ever stored. */
  datatype Run = Run(db: Db, ever: set<Snapshot>)

  ghost predicate Next(r: Run, step: Step, r': Run) {
    match step
    case Recorded(s) =>
      r'.db == Record(r.db, s) && r'.ever == if WindowTaken(r.db.raw, s) then r.ever else r.ever + {s}
    case Prunes(cutoff) => Pruned(r.db, cutoff, r'.db) && r'.ever == r.ever
  }

  /** The states a history of steps can pass through, latest last. */
  ghost predicate IsRun(states: History<Run>, steps: History<Step>) {
    states.Then? &&
    if steps.Start? then states == Then(Start, Run(Db({}, map[]), {}))
    else IsRun(states.before, steps.before) && Next(states.before.latest, steps.latest, states.latest)
  }

  ghost predicate Inv(r: Run) {
    && WindowsUnique(r.db.raw)
    && (forall k :: k in r.db.rollups ==> KeyOf(r.db.rollups[k]) == k)
    && Visible(r.db) <= r.ever
    && (forall s :: s in r.ever ==> Covered(r.db, s))
  }

  /** Something at least as late, of the same user and day, is still there. */
  ghost predicate Covered(db: Db, s: Snapshot) {
    || s in db.raw
    || (KeyOf(s) in db.rollups && s.at <= db.rollups[KeyOf(s)].at)
  }

  lemma {:induction false} LatestExists(all: set<Snapshot>, s: Snapshot) returns (best: Snapshot)
    requires s in all
    ensures IsLatest(all, best) && KeyOf(best) == KeyOf(s) && s.at <= best.at
    decreases |all|
  {
    if IsLatest(all, s) {
      best := s;
    } else {
      var later :| later in all && KeyOf(later) == KeyOf(s) && later.at > s.at;
      best := LatestExists(all - {s}, later);
    }
  }

  lemma PruneKeepsInv(db: Db, cutoff: int, db': Db, ever: set<Snapshot>)
    requires Inv(Run(db, ever)) && Pruned(db, cutoff, db')
    ensures Inv(Run(db', ever))
  {
    var expired := Expired(db.raw, cutoff);
    forall k | k in db'.rollups ensures KeyOf(db'.rollups[k]) == k && db'.rollups[k] in Visible(db)
        && (k in db.rollups ==> db.rollups[k].at <= db'.rollups[k].at)
        && (forall s :: s in expired && KeyOf(s) == k ==> s.at <= db'.rollups[k].at)
    {
      if s :| s in expired && KeyOf(s) == k {
        var best := LatestExists(expired, s);
        assert db'.rollups[KeyOf(best)] == Upsert(db.rollups, best)[KeyOf(best)];
      }
    }
    forall s | s in ever ensures Covered(db', s) {
      assert Covered(db, s);
    }
  }

  lemma {:induction false} RunKeepsInv(states: History<Run>, steps: History<Step>)
    requires IsRun(states, steps)
    ensures Inv(states.latest)
  {
    if steps.Then? {
      RunKeepsInv(states.before, steps.before);
      var r, r' := states.before.latest, states.latest;
      match steps.latest
      case Recorded(s) =>
        forall x | x in r'.ever ensures Covered(r'.db, x) {
          assert x in r.ever ==> Covered(r.db, x);
        }
      case Prunes(cutoff) => PruneKeepsInv(r.db, cutoff, r'.db, r.ever);
    }
  }

  ghost predicate DistinctTimes(all: set<Snapshot>) {
    forall r, s :: r in all && s in all && r.user == s.user && r.at == s.at ==> r == s
  }

  /** After any sequence of snapshots, in any order of their times, and prunes with any
      cutoffs: what a reader sees as a day's latest valuation is exactly the latest that
      was ever stored for it, values included. */
  lemma LatestOfDaySurvives(states: History<Run>, steps: History<Step>, s: Snapshot)
    requires IsRun(states, steps) && DistinctTimes(states.latest.ever)
    ensures IsLatest(Visible(states.latest.db), s) <==> IsLatest(states.latest.ever, s)
  {
    RunKeepsInv(states, steps);
    var r := states.latest;
    forall x | x in r.ever ensures exists v :: v in Visible(r.db) && KeyOf(v) == KeyOf(x) && x.at <= v.at {
      assert Covered(r.db, x);
      assert x in r.db.raw || r.db.rollups[KeyOf(x)] in Visible(r.db);
    }
  }

  /** There is at most one rollup of a user and day, it lies on that day, and it was stored as it reads. */
  lemma RollupsAreHonest(states: History<Run>, steps: History<Step>, k: (int, int))
    requires IsRun(states, steps) && k in states.latest.db.rollups
    ensures KeyOf(states.latest.db.rollups[k]) == k && states.latest.db.rollups[k] in states.latest.ever
  {
    RunKeepsInv(states, steps);
  }

  /** Pruning twice with the same cutoff is pruning once. */
  lemma PruneTwice(db: Db, cutoff: int, once: Db, twice: Db)
    requires Pruned(db, cutoff, once) && Pruned(once, cutoff, twice)
    ensures twice == once
  {
    assert Expired(once.raw, cutoff) == {};
    assert twice.rollups.Keys == once.rollups.Keys;
  }
}
