/** The single-flight cache of dashboard reads.  `get_or_load` is cut at its
    awaits into atomic segments, which any number of coroutines interleave. */
module DashboardCache {
  import Grouping
  import opened SlidingWindow
  import opened Wrappers

  const TTL := 5
  const MAX_ENTRIES := 256

  datatype Key = Key(user: int, request: string)

  /** A run of a key's loader: when it started, on the clock and in the order of steps. */
  datatype Load = Load(key: Key, startedAt: int, tick: nat)
  datatype Entry = Entry(expires: int, load: Load)

  // ---------------------------------------------------------------- the two dictionaries

  /** `_cache`, with its insertion order, and `_locks`, which maps to lock objects. */
  datatype Store = Store(cache: map<Key, Entry>, order: seq<Key>, locks: map<Key, nat>)

  /** The insertion order lists the cached keys, each once. */
  ghost predicate Valid(s: Store) {
    Grouping.Distinct(s.order) && SameKeys(s.order, s.cache)
  }

  ghost predicate SameKeys(order: seq<Key>, cache: map<Key, Entry>) {
    forall k :: k in order <==> k in cache
  }

  function Elements(keys: seq<Key>): set<Key> {
    set k | k in keys
  }

  function Without(order: seq<Key>, gone: set<Key>): seq<Key> {
    if order == [] then []
    else if order[0] in gone then Without(order[1..], gone)
    else [order[0]] + Without(order[1..], gone)
  }

  lemma {:induction false} WithoutHas(order: seq<Key>, gone: set<Key>)
    ensures forall k :: k in Without(order, gone) <==> k in order && k !in gone
  {
    if order != [] {
      WithoutHas(order[1..], gone);
      assert forall k :: k in order <==> k == order[0] || k in order[1..];
    }
  }

  lemma {:induction false} WithoutDistinct(order: seq<Key>, gone: set<Key>)
    requires Grouping.Distinct(order)
    ensures Grouping.Distinct(Without(order, gone))
  {
    if order != [] {
      WithoutDistinct(order[1..], gone);
      WithoutHas(order[1..], gone);
    }
  }

  function Drop(s: Store, gone: set<Key>): Store {
    Store(s.cache - gone, Without(s.order, gone), s.locks - gone)
  }

  function Expired(s: Store, now: int): set<Key> {
    set k | k in s.cache && s.cache[k].expires <= now
  }

  /** What a store that is full gives up before an insertion. */
  function Victims(s: Store, now: int): set<Key> {
    if |s.cache| < MAX_ENTRIES then {}
    else if Expired(s, now) != {} then Expired(s, now)
    else if s.order == [] then {}
    else {s.order[0]}
  }

  function Put(s: Store, key: Key, e: Entry): Store {
    Store(s.cache[key := e], if key in s.cache then s.order else s.order + [key], s.locks)
  }

  predicate Fresh(s: Store, key: Key, now: int) {
    key in s.cache && s.cache[key].expires > now
  }

  /** `_locks.setdefault(key, lock)`. */
  function Registered(s: Store, key: Key, lock: nat): Store {
    if key in s.locks then s else s.(locks := s.locks[key := lock])
  }

  function OwnedBy(s: Store, user: int): set<Key> {
    set k | k in s.cache && k.user == user
  }

  lemma {:induction false} WithoutTwice(order: seq<Key>, a: set<Key>, b: set<Key>)
    ensures Without(Without(order, a), b) == Without(order, a + b)
  {
    if order != [] {
      WithoutTwice(order[1..], a, b);
      if order[0] !in a {
        var rest := Without(order[1..], a);
        assert ([order[0]] + rest)[1..] == rest;
      }
    }
  }

  lemma DropTwice(s: Store, a: set<Key>, b: set<Key>)
    ensures Drop(Drop(s, a), b) == Drop(s, a + b)
  {
    WithoutTwice(s.order, a, b);
    assert s.cache - a - b == s.cache - (a + b);
    assert s.locks - a - b == s.locks - (a + b);
  }

  lemma {:induction false} WithoutNothing(order: seq<Key>)
    ensures Without(order, {}) == order
  {
    if order != [] {
      WithoutNothing(order[1..]);
    }
  }

  lemma DropNothing(s: Store)
    ensures Drop(s, {}) == s
  {
    WithoutNothing(s.order);
    assert s.cache - {} == s.cache && s.locks - {} == s.locks;
  }

  lemma OrderIsKeys(s: Store)
    requires Valid(s)
    ensures s.cache.Keys == Elements(s.order)
    ensures |s.cache| > 0 ==> s.order != []
  {
    assert forall k :: k in s.cache.Keys <==> k in s.order;
    if s.order == [] {
      assert s.cache.Keys == {};
      assert |s.cache| == |s.cache.Keys|;
    }
  }

  lemma SameKeysDropped(s: Store, gone: set<Key>)
    requires Valid(s)
    ensures Valid(Drop(s, gone))
  {
    WithoutHas(s.order, gone);
    WithoutDistinct(s.order, gone);
  }

  class DashboardCache {
    var cache: map<Key, Entry>
    var order: seq<Key>
    var locks: map<Key, nat>

    constructor ()
      ensures Contents() == Store(map[], [], map[])
    {
      cache, order, locks := map[], [], map[];
    }

    function Contents(): Store
      reads this
    {
      Store(cache, order, locks)
    }

    method Lookup(key: Key, now: int) returns (hit: Option<Load>)
      ensures hit == if Fresh(Contents(), key, now) then Some(cache[key].load) else None
    {
      hit := None;
      if key in cache && cache[key].expires > now {
        hit := Some(cache[key].load);
      }
    }

    method LockFor(key: Key, newLock: nat) returns (lock: nat)
      modifies this
      ensures Contents() == Registered(old(Contents()), key, newLock)
      ensures key in locks && lock == locks[key]
    {
      if key !in locks {
        locks := locks[key := newLock];
      }
      lock := locks[key];
    }

    /** `_cache.pop(key, None)` and `_locks.pop(key, None)`, key by key. */
    method PopAll(keys: seq<Key>)
      modifies this
      ensures Contents() == Drop(old(Contents()), Elements(keys))
    {
      ghost var before := Contents();
      DropNothing(before);
      assert Elements(keys[..0]) == {};
      for i := 0 to |keys|
        invariant Contents() == Drop(before, Elements(keys[..i]))
      {
        DropTwice(before, Elements(keys[..i]), {keys[i]});
        assert Elements(keys[..i + 1]) == Elements(keys[..i]) + {keys[i]};
        cache := cache - {keys[i]};
        order := Without(order, {keys[i]});
        locks := locks - {keys[i]};
      }
      assert keys[..|keys|] == keys;
    }

    /** The keys of `_cache`, in its order, that satisfy the comprehension's condition. */
    method KeysOf(user: int) returns (keys: seq<Key>)
      requires Valid(Contents())
      ensures Elements(keys) == OwnedBy(Contents(), user)
    {
      keys := [];
      for i := 0 to |order|
        invariant forall k :: k in keys <==> k in order[..i] && k.user == user
      {
        if order[i].user == user {
          keys := keys + [order[i]];
        }
      }
      assert order[..|order|] == order;
    }

    method ExpiredKeys(now: int) returns (keys: seq<Key>)
      requires Valid(Contents())
      ensures Elements(keys) == Expired(Contents(), now)
    {
      keys := [];
      for i := 0 to |order|
        invariant forall k :: k in keys <==> k in order[..i] && k in cache && cache[k].expires <= now
      {
        assert order[i] in order;
        if cache[order[i]].expires <= now {
          keys := keys + [order[i]];
        }
      }
      assert order[..|order|] == order;
    }

    method InvalidateUser(user: int)
      requires Valid(Contents())
      modifies this
      ensures Contents() == Drop(old(Contents()), OwnedBy(old(Contents()), user))
    {
      var keys := KeysOf(user);
      PopAll(keys);
    }

    /** The end of `get_or_load`: make room if the cache is full, then insert. */
    method Insert(key: Key, now: int, load: Load)
      requires Valid(Contents())
      modifies this
      ensures var before := old(Contents());
              Contents() == Put(Drop(before, Victims(before, now)), key, Entry(now + TTL, load))
    {
      ghost var before := Contents();
      OrderIsKeys(before);
      if |cache| >= MAX_ENTRIES {
        var expired := ExpiredKeys(now);
        if expired == [] {
          expired := [order[0]];
          assert Elements(expired) == {order[0]};
        } else {
          assert expired[0] in Elements(expired);
        }
        assert Elements(expired) == Victims(before, now);
        PopAll(expired);
      } else {
        DropNothing(before);
      }
      SameKeysDropped(before, Victims(before, now));
      if key !in cache {
        order := order + [key];
      }
      cache := cache[key := Entry(now + TTL, load)];
    }
  }

  // ---------------------------------------------------------------- interleaved coroutines

  /** A coroutine suspended in `get_or_load`: queued for a lock, or awaiting its loader with the lock held. */
  datatype Task = Waiting(key: Key, lock: nat) | Loading(lock: nat, load: Load)

  datatype Result = Result(key: Key, load: Load, at: int, tick: nat, cached: bool)

  datatype State = State(store: Store, tasks: map<nat, Task>, nextLock: nat, clock: int, tick: nat, results: History<Result>)

  datatype Step =
    | Enter(task: nat, key: Key, at: int)
    | Wake(task: nat, at: int)
    | Finish(task: nat, at: int)
    | Abort(task: nat, at: int)
    | Invalidate(user: int, at: int)

  const INITIAL := State(Store(map[], [], map[]), map[], 0, 0, 0, Start)

  predicate Held(tasks: map<nat, Task>, lock: nat) {
    exists t :: t in tasks && tasks[t].Loading? && tasks[t].lock == lock
  }

  predicate Queued(tasks: map<nat, Task>, lock: nat) {
    exists t :: t in tasks && tasks[t].Waiting? && tasks[t].lock == lock
  }

  /** A step that is not possible in the state, or turns the clock back, does nothing. */
  function Next(s: State, step: Step): State {
    if step.at < s.clock then s
    else
      var now := s.(clock := step.at, tick := s.tick + 1);
      match step
      case Enter(t, key, _) => Entering(now, t, key)
      case Wake(t, _) => Waking(now, t)
      case Finish(t, _) => Finishing(now, t)
      case Abort(t, _) => now.(tasks := now.tasks - {t})
      case Invalidate(user, _) => now.(store := Drop(now.store, OwnedBy(now.store, user)))
  }

  /** From the call to the first await: a fresh entry, or the key's lock, taken at once if nobody has or wants it. */
  function Entering(s: State, t: nat, key: Key): State {
    if t in s.tasks then s
    else if Fresh(s.store, key, s.clock) then Answer(s, key, s.store.cache[key].load, true)
    else
      var l := WithLock(s, key);
      var lock := l.store.locks[key];
      var task := if Held(l.tasks, lock) || Queued(l.tasks, lock) then Waiting(key, lock)
                  else Loading(lock, Load(key, l.clock, l.tick));
      l.(tasks := l.tasks[t := task])
  }

  /** The key's lock object, made if there is none. */
  function WithLock(s: State, key: Key): (r: State)
    ensures key in r.store.locks
  {
    s.(store := Registered(s.store, key, s.nextLock), nextLock := if key in s.store.locks then s.nextLock else s.nextLock + 1)
  }

  /** A queued coroutine gets the lock and looks again before it loads. */
  function Waking(s: State, t: nat): State {
    if t !in s.tasks || !s.tasks[t].Waiting? || Held(s.tasks, s.tasks[t].lock) then s
    else
      var key := s.tasks[t].key;
      if Fresh(s.store, key, s.clock) then Answer(s.(tasks := s.tasks - {t}), key, s.store.cache[key].load, true)
      else s.(tasks := s.tasks[t := Loading(s.tasks[t].lock, Load(key, s.clock, s.tick))])
  }

  /** The loader returned: the clock reading is still the one from before it ran. */
  function Finishing(s: State, t: nat): State {
    if t !in s.tasks || !s.tasks[t].Loading? then s
    else
      var load := s.tasks[t].load;
      var room := Drop(s.store, Victims(s.store, load.startedAt));
      Answer(s.(tasks := s.tasks - {t}, store := Put(room, load.key, Entry(load.startedAt + TTL, load))),
             load.key, load, false)
  }

  function Answer(s: State, key: Key, load: Load, cached: bool): State {
    s.(results := Then(s.results, Result(key, load, s.clock, s.tick, cached)))
  }

  function Run(s: State, steps: History<Step>): State {
    match steps
    case Start => s
    case Then(before, step) => Next(Run(s, before), step)
  }

  // ---------------------------------------------------------------- the invariant

  ghost predicate EntryOk(s: State, k: Key) {
    k in s.store.cache ==>
      var e := s.store.cache[k];
      e.load.key == k && e.expires == e.load.startedAt + TTL && e.load.startedAt <= s.clock && e.load.tick <= s.tick
  }

  ghost predicate TaskOk(s: State, t: nat) {
    t in s.tasks ==>
      && s.tasks[t].lock < s.nextLock
      && (s.tasks[t].Loading? ==> s.tasks[t].load.startedAt <= s.clock && s.tasks[t].load.tick <= s.tick)
  }

  ghost predicate Exclusive(s: State, t: nat, u: nat) {
    t in s.tasks && u in s.tasks && s.tasks[t].Loading? && s.tasks[u].Loading? && s.tasks[t].lock == s.tasks[u].lock ==> t == u
  }

  /** Every answer is a load of the key asked for, and one taken from the cache at
      time t started after t - TTL. */
  ghost predicate AnswersOk(results: History<Result>) {
    results.Then? ==>
      && AnswersOk(results.before)
      && results.latest.load.key == results.latest.key
      && (results.latest.cached ==> results.latest.load.startedAt > results.latest.at - TTL)
  }

  ghost predicate Inv(s: State) {
    && Valid(s.store) && |s.store.cache| <= MAX_ENTRIES
    && (forall k :: k in s.store.locks ==> s.store.locks[k] < s.nextLock)
    && (forall k :: EntryOk(s, k))
    && (forall t :: TaskOk(s, t))
    && (forall t, u :: Exclusive(s, t, u))
    && AnswersOk(s.results)
  }

  lemma EvictionMakesRoom(s: Store, now: int)
    requires Valid(s) && |s.cache| <= MAX_ENTRIES
    ensures |Drop(s, Victims(s, now)).cache| < MAX_ENTRIES
  {
    var gone := Victims(s, now);
    OrderIsKeys(s);
    var left := s.cache.Keys - gone;
    assert Drop(s, gone).cache.Keys == left;
    if |s.cache| >= MAX_ENTRIES {
      var k :| k in gone;
      assert k in Elements(s.order);
      SubsetSize(left, s.cache.Keys - {k});
    } else {
      assert left == s.cache.Keys;
    }
    assert |Drop(s, gone).cache| == |left| && |s.cache| == |s.cache.Keys|;
  }

  lemma PutKeepsValid(s: Store, key: Key, e: Entry)
    requires Valid(s)
    ensures Valid(Put(s, key, e)) && |Put(s, key, e).cache| <= |s.cache| + 1
  {
    var s' := Put(s, key, e);
    assert s'.cache.Keys == s.cache.Keys + {key};
    assert |s'.cache| == |s'.cache.Keys| && |s.cache| == |s.cache.Keys|;
    assert key !in s.cache ==> key !in s.order;
    forall k ensures k in s'.order <==> k in s'.cache {
      assert k in s.order <==> k in s.cache;
    }
  }

  /** Whatever is evicted, an insertion leaves the cache valid and within its limit. */
  lemma PutStaysBounded(s: Store, now: int, key: Key, e: Entry)
    requires Valid(s) && |s.cache| <= MAX_ENTRIES
    ensures var s' := Put(Drop(s, Victims(s, now)), key, e);
            Valid(s') && |s'.cache| <= MAX_ENTRIES
  {
    EvictionMakesRoom(s, now);
    SameKeysDropped(s, Victims(s, now));
    PutKeepsValid(Drop(s, Victims(s, now)), key, e);
  }

  lemma DropShrinks(s: Store, gone: set<Key>)
    ensures |Drop(s, gone).cache| <= |s.cache|
  {
    var d := Drop(s, gone);
    assert d.cache.Keys == s.cache.Keys - gone;
    assert |d.cache| == |d.cache.Keys| && |s.cache| == |s.cache.Keys|;
    SubsetSize(d.cache.Keys, s.cache.Keys);
  }

  lemma DropKeepsStore(s: Store, gone: set<Key>)
    requires Valid(s) && |s.cache| <= MAX_ENTRIES
    ensures Valid(Drop(s, gone)) && |Drop(s, gone).cache| <= MAX_ENTRIES
  {
    SameKeysDropped(s, gone);
    DropShrinks(s, gone);
  }

  lemma NextKeepsStore(s: State, step: Step)
    requires Inv(s)
    ensures Valid(Next(s, step).store) && |Next(s, step).store.cache| <= MAX_ENTRIES
  {
    if step.at >= s.clock {
      match step
      case Finish(t, _) =>
        if t in s.tasks && s.tasks[t].Loading? {
          var load := s.tasks[t].load;
          PutStaysBounded(s.store, load.startedAt, load.key, Entry(load.startedAt + TTL, load));
        }
      case Invalidate(user, _) => DropKeepsStore(s.store, OwnedBy(s.store, user));
      case _ => assert Next(s, step).store.cache == s.store.cache && Next(s, step).store.order == s.store.order;
    }
  }

  lemma NextKeepsEntries(s: State, step: Step, k: Key)
    requires Inv(s)
    ensures EntryOk(Next(s, step), k)
  {
    assert EntryOk(s, k);
    if step.Finish? {
      assert TaskOk(s, step.task);
    } else {
      assert k in Next(s, step).store.cache ==> k in s.store.cache && Next(s, step).store.cache[k] == s.store.cache[k];
    }
  }

  lemma NextKeepsLocks(s: State, step: Step, k: Key)
    requires Inv(s) && k in Next(s, step).store.locks
    ensures Next(s, step).store.locks[k] < Next(s, step).nextLock
  {
  }

  lemma NextKeepsTasks(s: State, step: Step)
    requires Inv(s)
    ensures var s' := Next(s, step);
            && (forall t :: TaskOk(s', t))
            && (forall t, u :: Exclusive(s', t, u))
  {
    var s' := Next(s, step);
    forall t ensures TaskOk(s', t) { assert TaskOk(s, t); }
    forall t, u ensures Exclusive(s', t, u) { assert Exclusive(s, t, u); }
  }

  lemma NextKeepsInv(s: State, step: Step)
    requires Inv(s)
    ensures Inv(Next(s, step))
  {
    NextKeepsStore(s, step);
    NextKeepsTasks(s, step);
    forall k ensures EntryOk(Next(s, step), k) { NextKeepsEntries(s, step, k); }
    forall k | k in Next(s, step).store.locks ensures Next(s, step).store.locks[k] < Next(s, step).nextLock {
      NextKeepsLocks(s, step, k);
    }
    if step.Enter? {
      assert EntryOk(s, step.key);
    } else if step.Wake? && step.task in s.tasks && s.tasks[step.task].Waiting? {
      assert EntryOk(s, s.tasks[step.task].key);
    }
  }

  /** In every interleaving: at most 256 entries, one loader per lock object, and
      cached answers no staler than the time to live. */
  lemma {:induction false} RunKeepsInv(s: State, steps: History<Step>)
    requires Inv(s)
    ensures Inv(Run(s, steps))
  {
    if steps.Then? {
      RunKeepsInv(s, steps.before);
      NextKeepsInv(Run(s, steps.before), steps.latest);
    }
  }

  lemma InitialInv()
    ensures Inv(INITIAL)
  {
  }

  /** From the empty cache, however coroutines and invalidations interleave: at most 256
      entries, every answer is a load of the key asked for, and a cached one started after t - TTL. */
  lemma CacheIsSafe(steps: History<Step>)
    ensures AnswersOk(Run(INITIAL, steps).results)
    ensures |Run(INITIAL, steps).store.cache| <= MAX_ENTRIES
  {
    InitialInv();
    RunKeepsInv(INITIAL, steps);
  }

  /** In every reachable state a lookup hits exactly what a load that started after now - TTL left
      there, whatever was loaded, evicted and invalidated before. */
  lemma HitIsRecent(steps: History<Step>, key: Key, now: int)
    ensures var cache := Run(INITIAL, steps).store.cache;
            && (key in cache ==> cache[key].load.key == key)
            && (Fresh(Run(INITIAL, steps).store, key, now) <==> key in cache && now - TTL < cache[key].load.startedAt)
  {
    InitialInv();
    RunKeepsInv(INITIAL, steps);
    assert EntryOk(Run(INITIAL, steps), key);
  }

  /** What a returning load evicts: from a cache of 256 entries all that have expired by its start, or
      else the one inserted first; from a smaller one nothing. */
  lemma EvictionIsExact(steps: History<Step>, t: nat, at: int, k: Key)
    requires var s := Run(INITIAL, steps); at >= s.clock && t in s.tasks && s.tasks[t].Loading? && k != s.tasks[t].load.key
    ensures
      var s := Run(INITIAL, steps);
      var before, after := s.store, Next(s, Finish(t, at)).store;
      var now := s.tasks[t].load.startedAt;
      var someExpired := exists e :: e in before.cache && before.cache[e].expires <= now;
      && (before.cache != map[] ==> before.order != [])
      && (k in after.cache <==>
            k in before.cache && (|before.cache| < 256 || (if someExpired then before.cache[k].expires > now else k != before.order[0])))
      && (k in after.cache ==> after.cache[k] == before.cache[k])
  {
    var s := Run(INITIAL, steps);
    InitialInv();
    RunKeepsInv(INITIAL, steps);
    EvictionOf(s.store, s.tasks[t].load.startedAt, k);
  }

  lemma EvictionOf(s: Store, now: int, k: Key)
    requires Valid(s)
    ensures s.cache != map[] ==> s.order != []
    ensures k in s.cache ==> (k !in Victims(s, now) <==>
              |s.cache| < 256 ||
              (if exists e :: e in s.cache && s.cache[e].expires <= now then s.cache[k].expires > now else k != s.order[0]))
  {
    if e :| e in s.cache && s.cache[e].expires <= now {
      assert e in Expired(s, now);
    }
    if e :| e in s.cache {
      assert e in s.order;
    }
  }

  // ---------------------------------------------------------------- invalidation

  ghost predicate NoLoadInFlight(s: State, user: int) {
    forall t :: t in s.tasks && s.tasks[t].Loading? ==> s.tasks[t].load.key.user != user
  }

  /** Of the answers given to `user` after step `since`, all come from loads started after it. */
  ghost predicate AnsweredAnew(results: History<Result>, user: int, since: nat) {
    results.Then? ==>
      && AnsweredAnew(results.before, user, since)
      && (results.latest.tick > since && results.latest.key.user == user ==> results.latest.load.tick > since)
  }

  /** Nothing of the user's that is older than `since` is being loaded, or cached and not expired. */
  ghost predicate Forgotten(s: State, user: int, since: nat) {
    && s.tick >= since
    && (forall k :: k in s.store.cache && k.user == user ==> s.store.cache[k].load.tick > since || s.store.cache[k].expires <= s.clock)
    && (forall t :: t in s.tasks && s.tasks[t].Loading? && s.tasks[t].load.key.user == user ==> s.tasks[t].load.tick > since)
    && AnsweredAnew(s.results, user, since)
  }

  lemma EnterKeepsForgotten(s: State, t: nat, key: Key, at: int, user: int, since: nat)
    requires Forgotten(s, user, since) && EntryOk(s, key)
    ensures Forgotten(Next(s, Enter(t, key, at)), user, since)
  {
  }

  lemma WakeKeepsForgotten(s: State, t: nat, at: int, user: int, since: nat)
    requires Forgotten(s, user, since)
    requires t in s.tasks && s.tasks[t].Waiting? ==> EntryOk(s, s.tasks[t].key)
    ensures Forgotten(Next(s, Wake(t, at)), user, since)
  {
  }

  lemma FinishKeepsForgotten(s: State, t: nat, at: int, user: int, since: nat)
    requires Forgotten(s, user, since)
    ensures Forgotten(Next(s, Finish(t, at)), user, since)
  {
  }

  lemma DroppingKeepsForgotten(s: State, step: Step, user: int, since: nat)
    requires Forgotten(s, user, since) && (step.Abort? || step.Invalidate?)
    ensures Forgotten(Next(s, step), user, since)
  {
  }

  lemma NextKeepsForgotten(s: State, step: Step, user: int, since: nat)
    requires (forall k :: EntryOk(s, k)) && Forgotten(s, user, since)
    ensures Forgotten(Next(s, step), user, since)
  {
    match step
    case Enter(t, key, at) =>
      assert EntryOk(s, key);
      EnterKeepsForgotten(s, t, key, at, user, since);
    case Wake(t, at) =>
      assert t in s.tasks && s.tasks[t].Waiting? ==> EntryOk(s, s.tasks[t].key);
      WakeKeepsForgotten(s, t, at, user, since);
    case Finish(t, at) => FinishKeepsForgotten(s, t, at, user, since);
    case Abort(_, _) => DroppingKeepsForgotten(s, step, user, since);
    case Invalidate(_, _) => DroppingKeepsForgotten(s, step, user, since);
  }

  lemma {:induction false} RunKeepsForgotten(s: State, steps: History<Step>, user: int, since: nat)
    requires Inv(s) && Forgotten(s, user, since)
    ensures Forgotten(Run(s, steps), user, since)
  {
    if steps.Then? {
      RunKeepsForgotten(s, steps.before, user, since);
      RunKeepsInv(s, steps.before);
      NextKeepsForgotten(Run(s, steps.before), steps.latest, user, since);
    }
  }

  ghost predicate TicksBy(results: History<Result>, tick: nat) {
    results.Then? ==> results.latest.tick <= tick && TicksBy(results.before, tick)
  }

  lemma {:induction false} TicksByAnew(results: History<Result>, user: int, since: nat)
    requires TicksBy(results, since)
    ensures AnsweredAnew(results, user, since)
  {
    if results.Then? {
      TicksByAnew(results.before, user, since);
    }
  }

  lemma {:induction false} TicksByLater(results: History<Result>, tick: nat, later: nat)
    requires TicksBy(results, tick) && tick <= later
    ensures TicksBy(results, later)
  {
    if results.Then? {
      TicksByLater(results.before, tick, later);
    }
  }

  lemma {:induction false} RunTicks(steps: History<Step>)
    ensures TicksBy(Run(INITIAL, steps).results, Run(INITIAL, steps).tick)
  {
    if steps.Then? {
      RunTicks(steps.before);
      var s := Run(INITIAL, steps.before);
      TicksByLater(s.results, s.tick, s.tick + 1);
    }
  }

  lemma InvalidationForgets(before: History<Step>, user: int, at: int)
    requires at >= Run(INITIAL, before).clock && NoLoadInFlight(Run(INITIAL, before), user)
    ensures var s' := Next(Run(INITIAL, before), Invalidate(user, at));
            Inv(s') && Forgotten(s', user, s'.tick)
  {
    var s := Run(INITIAL, before);
    var s' := Next(s, Invalidate(user, at));
    InitialInv();
    RunKeepsInv(INITIAL, before);
    NextKeepsInv(s, Invalidate(user, at));
    RunTicks(before);
    TicksByLater(s.results, s.tick, s'.tick);
    TicksByAnew(s'.results, user, s'.tick);
  }

  lemma FinishAnswersLate(s: State, t: nat, at: int, user: int)
    requires at >= s.clock && t in s.tasks && s.tasks[t].Loading?
    requires s.tasks[t].load.key.user == user && s.tasks[t].load.tick <= s.tick
    ensures !AnsweredAnew(Next(s, Finish(t, at)).results, user, s.tick)
  {
    assert Next(s, Finish(t, at)).results.latest == Result(s.tasks[t].load.key, s.tasks[t].load, at, s.tick + 1, false);
  }

  lemma InFlightAnswersLate(s: State, user: int) returns (steps: History<Step>)
    requires !NoLoadInFlight(s, user) && forall t :: TaskOk(s, t)
    ensures !AnsweredAnew(Run(s, steps).results, user, s.tick)
  {
    var t :| t in s.tasks && s.tasks[t].Loading? && s.tasks[t].load.key.user == user;
    assert TaskOk(s, t);
    steps := Then(Start, Finish(t, s.clock));
    assert Run(s, Start) == s;
    FinishAnswersLate(s, t, s.clock, user);
  }

  /** A load that is in flight at the invalidation answers from before it when it returns. */
  lemma LoadInFlightAnswersLate(before: History<Step>, user: int, at: int)
    returns (steps: History<Step>)
    requires at >= Run(INITIAL, before).clock && !NoLoadInFlight(Run(INITIAL, before), user)
    ensures var s' := Next(Run(INITIAL, before), Invalidate(user, at));
            !AnsweredAnew(Run(s', steps).results, user, s'.tick)
  {
    var s := Run(INITIAL, before);
    var s' := Next(s, Invalidate(user, at));
    InitialInv();
    RunKeepsInv(INITIAL, before);
    NextKeepsInv(s, Invalidate(user, at));
    steps := InFlightAnswersLate(s', user);
  }

  /** Invalidation makes mutations visible exactly when no load of the user is in flight:
      then, and only then, every later answer in every continuation comes from a load
      that started after it. */
  lemma InvalidationIsExact(before: History<Step>, user: int, at: int)
    requires at >= Run(INITIAL, before).clock
    ensures var s := Run(INITIAL, before);
            var s' := Next(s, Invalidate(user, at));
            (forall steps :: AnsweredAnew(Run(s', steps).results, user, s'.tick)) <==> NoLoadInFlight(s, user)
  {
    var s := Run(INITIAL, before);
    var s' := Next(s, Invalidate(user, at));
    if NoLoadInFlight(s, user) {
      InvalidationForgets(before, user, at);
      forall steps ensures AnsweredAnew(Run(s', steps).results, user, s'.tick) {
        RunKeepsForgotten(s', steps, user, s'.tick);
      }
    } else {
      var steps := LoadInFlightAnswersLate(before, user, at);
    }
  }

  ghost predicate NothingFresh(s: State, user: int) {
    forall k :: k in s.store.cache && k.user == user ==> !Fresh(s.store, k, s.clock)
  }

  /** A fresh entry answers whoever comes next. */
  lemma FreshAnswersLate(s: State, k: Key) returns (steps: History<Step>)
    requires Fresh(s.store, k, s.clock) && EntryOk(s, k)
    ensures !AnsweredAnew(Run(s, steps).results, k.user, s.tick)
  {
    var t := AboveAll(s.tasks.Keys);
    steps := Then(Start, Enter(t, k, s.clock));
    assert Run(s, Start) == s;
    assert Run(s, steps).results.latest == Result(k, s.store.cache[k].load, s.clock, s.tick + 1, true);
  }

  /** Every answer to the user from now on comes from a load that starts from now on. */
  ghost predicate AnswersAnew(s: State, user: int) {
    forall steps :: AnsweredAnew(Run(s, steps).results, user, s.tick)
  }

  lemma QuietAnswersAnew(before: History<Step>, user: int)
    requires var s := Run(INITIAL, before); NoLoadInFlight(s, user) && NothingFresh(s, user)
    ensures AnswersAnew(Run(INITIAL, before), user)
  {
    var s := Run(INITIAL, before);
    InitialInv();
    RunKeepsInv(INITIAL, before);
    RunTicks(before);
    TicksByAnew(s.results, user, s.tick);
    forall steps ensures AnsweredAnew(Run(s, steps).results, user, s.tick) {
      RunKeepsForgotten(s, steps, user, s.tick);
    }
  }

  /** A handler invalidates before its transaction commits.  From the commit on, every answer to the
      user in every continuation comes from a load that started after it, and so sees what was
      committed, if and only if no load of the user is in flight then and no entry of his is fresh. */
  lemma CommitIsSeenExactly(before: History<Step>, user: int)
    ensures var s := Run(INITIAL, before);
            AnswersAnew(s, user) <==> NoLoadInFlight(s, user) && NothingFresh(s, user)
  {
    var s := Run(INITIAL, before);
    InitialInv();
    RunKeepsInv(INITIAL, before);
    if !NoLoadInFlight(s, user) {
      var steps := InFlightAnswersLate(s, user);
    } else if !NothingFresh(s, user) {
      var k :| k in s.store.cache && k.user == user && Fresh(s.store, k, s.clock);
      assert EntryOk(s, k);
      var steps := FreshAnswersLate(s, k);
    } else {
      QuietAnswersAnew(before, user);
    }
  }

  /** What a load in flight at an invalidation leaves in the cache when it is back. */
  lemma LateInsert(key: Key, at: nat)
    ensures
      var s := Run(INITIAL, Then(Then(Then(Start, Enter(1, key, at)), Invalidate(key.user, at + 1)), Finish(1, at + 2)));
      s.clock == at + 2 && s.tick == 3 && key in s.store.cache && s.store.cache[key] == Entry(at + TTL, Load(key, at, 1))
      && 2 !in s.tasks
  {
    var s1 := Next(INITIAL, Enter(1, key, at));
    assert s1.tasks == map[1 := Loading(0, Load(key, at, 1))];
    var s2 := Next(s1, Invalidate(key.user, at + 1));
    assert s2.tasks == s1.tasks && s2.store.cache == map[] && s2.store.order == [];
    var entered := Then(Start, Enter(1, key, at));
    assert Run(INITIAL, Start) == INITIAL;
    assert Run(INITIAL, entered) == s1;
    assert Run(INITIAL, Then(entered, Invalidate(key.user, at + 1))) == s2;
  }

  /** For every key and time: a load that was in flight refills the cache, and a request that arrives two
      steps after the invalidation is answered from before it. */
  lemma LateInsertIsServed(key: Key, at: nat)
    ensures var steps := Then(Then(Then(Then(Start, Enter(1, key, at)), Invalidate(key.user, at + 1)), Finish(1, at + 2)), Enter(2, key, at + 3));
            var s := Run(INITIAL, steps);
            s.results.Then? && s.results.latest == Result(key, Load(key, at, 1), at + 3, 4, true)
  {
    LateInsert(key, at);
  }

  // ---------------------------------------------------------------- single flight

  /** No step of the run takes the key's lock object out of `_locks`. */
  ghost predicate NeverPopped(s: State, steps: History<Step>, key: Key) {
    steps.Then? ==>
      && NeverPopped(s, steps.before, key)
      && (key in Run(s, steps.before).store.locks ==> key in Run(s, steps).store.locks)
  }

  function KeyOf(t: Task): Key {
    if t.Waiting? then t.key else t.load.key
  }

  /** Coroutines on `key` that arrived after `s` all use the lock that is registered now. */
  ghost predicate NewcomersShare(s: State, s': State, key: Key) {
    forall t :: t in s'.tasks && t !in s.tasks && KeyOf(s'.tasks[t]) == key ==>
      key in s'.store.locks && s'.tasks[t].lock == s'.store.locks[key]
  }

  lemma NextKeepsSharing(origin: State, s: State, step: Step, key: Key)
    requires NewcomersShare(origin, s, key)
    requires key in s.store.locks ==> key in Next(s, step).store.locks
    ensures NewcomersShare(origin, Next(s, step), key)
  {
    var s' := Next(s, step);
    assert key in s.store.locks ==> s'.store.locks[key] == s.store.locks[key];
    forall t | t in s'.tasks && t !in origin.tasks && KeyOf(s'.tasks[t]) == key
      ensures key in s'.store.locks && s'.tasks[t].lock == s'.store.locks[key]
    {
      assert t in s.tasks ==> s'.tasks[t].lock == s.tasks[t].lock && KeyOf(s'.tasks[t]) == KeyOf(s.tasks[t]);
    }
  }

  lemma {:induction false} NewcomersShareLock(s: State, steps: History<Step>, key: Key)
    requires Inv(s) && NeverPopped(s, steps, key)
    ensures NewcomersShare(s, Run(s, steps), key)
  {
    if steps.Then? {
      NewcomersShareLock(s, steps.before, key);
      NextKeepsSharing(s, Run(s, steps.before), steps.latest, key);
    }
  }

  /** Single flight: as long as the key is neither evicted nor invalidated, at most one
      of the coroutines that arrived meanwhile runs the key's loader. */
  lemma OneLoaderPerKey(s: State, steps: History<Step>, key: Key, t: nat, u: nat)
    requires Inv(s) && NeverPopped(s, steps, key)
    requires var s' := Run(s, steps);
             && t in s'.tasks && t !in s.tasks && s'.tasks[t].Loading? && s'.tasks[t].load.key == key
             && u in s'.tasks && u !in s.tasks && s'.tasks[u].Loading? && s'.tasks[u].load.key == key
    ensures t == u
  {
    NewcomersShareLock(s, steps, key);
    RunKeepsInv(s, steps);
    assert Exclusive(Run(s, steps), t, u);
  }

  // ---------------------------------------------------------------- the second look

  /** The load of the key that returned last. */
  function LastReturned(results: History<Result>, key: Key): Option<Load> {
    match results
    case Start => None
    case Then(before, r) => if !r.cached && r.key == key then Some(r.load) else LastReturned(before, key)
  }

  /** What is cached is what returned last. */
  ghost predicate CachedLast(s: State, key: Key) {
    key in s.store.cache ==>
      var last := LastReturned(s.results, key);
      last.Some? && s.store.cache[key] == Entry(last.value.startedAt + TTL, last.value)
  }

  lemma {:induction false} CacheHoldsLast(steps: History<Step>, key: Key)
    ensures CachedLast(Run(INITIAL, steps), key)
  {
    if steps.Then? {
      CacheHoldsLast(steps.before, key);
      NextKeepsLast(Run(INITIAL, steps.before), steps.latest, key);
    }
  }

  lemma FinishKeepsLast(s: State, t: nat, at: int, key: Key)
    requires CachedLast(s, key) && at >= s.clock && t in s.tasks && s.tasks[t].Loading?
    ensures CachedLast(Next(s, Finish(t, at)), key)
  {
    var s', load := Next(s, Finish(t, at)), s.tasks[t].load;
    FinishStores(s, t, at);
    if key != load.key && key in s'.store.cache {
      FinishLeaves(s, t, at, key);
    }
  }

  lemma NextKeepsLast(s: State, step: Step, key: Key)
    requires CachedLast(s, key)
    ensures CachedLast(Next(s, step), key)
  {
    if step.Finish? {
      if step.at >= s.clock && step.task in s.tasks && s.tasks[step.task].Loading? {
        FinishKeepsLast(s, step.task, step.at, key);
      }
    }
  }

  /** What a returning load stores. */
  lemma FinishStores(s: State, t: nat, at: int)
    requires at >= s.clock && t in s.tasks && s.tasks[t].Loading?
    ensures var s', load := Next(s, Finish(t, at)), s.tasks[t].load;
            && s'.tasks == s.tasks - {t}
            && load.key in s'.store.cache && s'.store.cache[load.key] == Entry(load.startedAt + TTL, load)
            && s'.results == Then(s.results, Result(load.key, load, at, s.tick + 1, false)) && s'.tick == s.tick + 1
            && forall k :: k in s'.store.locks ==> k in s.store.locks && s'.store.locks[k] == s.store.locks[k]
  {
  }

  /** What it leaves of another key: the entry and the lock, or neither. */
  lemma FinishLeaves(s: State, t: nat, at: int, key: Key)
    requires at >= s.clock && t in s.tasks && s.tasks[t].Loading? && s.tasks[t].load.key != key
    ensures var before, after := s.store, Next(s, Finish(t, at)).store;
            && (key in after.cache ==> key in before.cache && after.cache[key] == before.cache[key])
            && (key in before.cache && key !in after.cache ==> key !in after.locks)
  {
  }

  /** A coroutine that is woken while nobody holds its lock looks again.  While the load that returned
      last for its key is less than the time to live old, and cached, it answers with that load and is
      done; else it starts one of its own.  While somebody loads under the lock it keeps waiting. */
  lemma WakingLooksAgain(steps: History<Step>, t: nat, at: int)
    requires var s := Run(INITIAL, steps); at >= s.clock && t in s.tasks && s.tasks[t].Waiting?
    ensures var s := Run(INITIAL, steps);
            var s', key := Next(s, Wake(t, at)), s.tasks[t].key;
            var last := LastReturned(s.results, key);
            && s'.store == s.store
            && if exists u :: u in s.tasks && s.tasks[u].Loading? && s.tasks[u].lock == s.tasks[t].lock then
                 s'.tasks == s.tasks && s'.results == s.results
               else if key in s.store.cache && last.Some? && at < last.value.startedAt + TTL then
                 s'.tasks == s.tasks - {t} && s'.results == Then(s.results, Result(key, last.value, at, s.tick + 1, true))
               else
                 s'.tasks == s.tasks[t := Loading(s.tasks[t].lock, Load(key, at, s.tick + 1))] && s'.results == s.results
  {
    CacheHoldsLast(steps, Run(INITIAL, steps).tasks[t].key);
  }

  /** An invalidation takes the user's entries and their locks and nobody else's, and a coroutine whose
      loader fails is gone with its hold on the lock; neither touches anything else. */
  lemma InvalidationIsOwn(s: State, user: int, at: int, k: Key, t: nat)
    requires at >= s.clock
    ensures var s' := Next(s, Invalidate(user, at));
            && s'.tasks == s.tasks && s'.results == s.results
            && (k in s'.store.cache <==> k in s.store.cache && k.user != user)
            && (k in s'.store.cache ==> s'.store.cache[k] == s.store.cache[k])
            && (k in s'.store.locks <==> k in s.store.locks && !(k in s.store.cache && k.user == user))
            && (k in s'.store.locks ==> s'.store.locks[k] == s.store.locks[k])
    ensures var s' := Next(s, Abort(t, at)); s'.tasks == s.tasks - {t} && s'.store == s.store && s'.results == s.results
  {
  }

  /** So does a coroutine that arrives, before it asks for the lock; else it waits, or loads at once if
      nobody has or wants the lock. */
  lemma EnteringLooksFirst(steps: History<Step>, t: nat, key: Key, at: int)
    requires at >= Run(INITIAL, steps).clock && t !in Run(INITIAL, steps).tasks
    ensures var s := Run(INITIAL, steps);
            var s', last := Next(s, Enter(t, key, at)), LastReturned(s.results, key);
            && s'.store.cache == s.store.cache
            && if key in s.store.cache && last.Some? && at < last.value.startedAt + TTL then
                 s'.tasks == s.tasks && s'.results == Then(s.results, Result(key, last.value, at, s.tick + 1, true))
               else
                 s'.results == s.results && Queues(s, s', t, key, at)
  {
    var s := Run(INITIAL, steps);
    CacheHoldsLast(steps, key);
    EnteringLooks(s, t, key, at);
  }

  lemma EnteringLooks(s: State, t: nat, key: Key, at: int)
    requires at >= s.clock && t !in s.tasks && CachedLast(s, key)
    ensures var s', last := Next(s, Enter(t, key, at)), LastReturned(s.results, key);
            && s'.store.cache == s.store.cache
            && if key in s.store.cache && last.Some? && at < last.value.startedAt + TTL then
                 s'.tasks == s.tasks && s'.results == Then(s.results, Result(key, last.value, at, s.tick + 1, true))
               else
                 s'.results == s.results && Queues(s, s', t, key, at)
  {
    if !Fresh(s.store, key, at) {
      EnteringQueues(s, t, key, at);
    }
  }

  /** The newcomer waits for its key's lock exactly if somebody has it or waits for it. */
  ghost predicate Queues(s: State, s': State, t: nat, key: Key, at: int) {
    && t in s'.tasks && s'.tasks - {t} == s.tasks && key in s'.store.locks && s'.tasks[t].lock == s'.store.locks[key]
    && if exists u :: u in s.tasks && s.tasks[u].lock == s'.tasks[t].lock then s'.tasks[t].Waiting? && s'.tasks[t].key == key
       else s'.tasks[t].Loading? && s'.tasks[t].load == Load(key, at, s.tick + 1)
  }

  lemma EnteringQueues(s: State, t: nat, key: Key, at: int)
    requires at >= s.clock && t !in s.tasks && !Fresh(s.store, key, at)
    ensures Queues(s, Next(s, Enter(t, key, at)), t, key, at)
  {
    var s' := Next(s, Enter(t, key, at));
    assert s'.tasks - {t} == s.tasks;
    if u :| u in s.tasks && s.tasks[u].lock == s'.tasks[t].lock {
      assert Held(s.tasks, s.tasks[u].lock) || Queued(s.tasks, s.tasks[u].lock);
    }
  }

  /** All loads of the key that returned after step `since` started no later than `bound`. */
  ghost predicate StartedBy(results: History<Result>, key: Key, since: nat, bound: int) {
    results.Then? ==>
      && StartedBy(results.before, key, since, bound)
      && (results.latest.tick > since && !results.latest.cached && results.latest.key == key ==>
            results.latest.load.startedAt <= bound)
  }

  predicate Returned(results: History<Result>, key: Key, since: nat) {
    results.Then? &&
    ((results.latest.tick > since && !results.latest.cached && results.latest.key == key) || Returned(results.before, key, since))
  }

  /** Every coroutine on the key waits for or holds the lock that is registered now. */
  ghost predicate AllShare(s: State, key: Key) {
    forall t :: t in s.tasks && KeyOf(s.tasks[t]) == key ==> key in s.store.locks && s.tasks[t].lock == s.store.locks[key]
  }

  /** What returned last is cached, nothing that returned started later, and whoever loads now started
      when it had expired. */
  ghost predicate Spaced(s: State, key: Key, since: nat) {
    && s.tick >= since && AllShare(s, key)
    && (Returned(s.results, key, since) ==>
          && key in s.store.cache && key in s.store.locks
          && StartedBy(s.results, key, since, s.store.cache[key].expires - TTL)
          && forall t :: t in s.tasks && s.tasks[t].Loading? && s.tasks[t].load.key == key ==>
               s.store.cache[key].expires <= s.tasks[t].load.startedAt)
  }

  lemma {:induction false} StartedByLater(results: History<Result>, key: Key, since: nat, bound: int, later: int)
    requires StartedBy(results, key, since, bound) && bound <= later
    ensures StartedBy(results, key, since, later)
  {
    if results.Then? {
      StartedByLater(results.before, key, since, bound, later);
    }
  }

  lemma {:induction false} NoneStarted(results: History<Result>, key: Key, since: nat, bound: int)
    requires !Returned(results, key, since)
    ensures StartedBy(results, key, since, bound)
  {
    if results.Then? {
      NoneStarted(results.before, key, since, bound);
    }
  }

  lemma EnterKeepsSpaced(s: State, t: nat, k: Key, at: int, key: Key, since: nat)
    requires Spaced(s, key, since)
    ensures Spaced(Next(s, Enter(t, k, at)), key, since)
  {
  }

  lemma WakeKeepsSpaced(s: State, t: nat, at: int, key: Key, since: nat)
    requires Spaced(s, key, since)
    ensures Spaced(Next(s, Wake(t, at)), key, since)
  {
  }

  /** A step that drops the key from the cache takes its lock too. */
  lemma StayKeepsSpaced(s: State, step: Step, key: Key, since: nat)
    requires Inv(s) && Spaced(s, key, since) && (step.Abort? || step.Invalidate?)
    requires key in s.store.locks ==> key in Next(s, step).store.locks
    ensures Spaced(Next(s, step), key, since)
  {
  }

  /** The state after another key's load has returned, as far as this key goes. */
  lemma ElsewhereKeepsSpaced(s: State, s': State, key: Key, since: nat, r: Result)
    requires Spaced(s, key, since) && r.key != key
    requires s'.tick >= s.tick && s'.results == Then(s.results, r)
    requires forall u :: u in s'.tasks ==> u in s.tasks && s'.tasks[u] == s.tasks[u]
    requires key in s.store.locks ==> key in s'.store.locks && s'.store.locks[key] == s.store.locks[key]
    requires key in s.store.cache && key in s.store.locks ==> key in s'.store.cache && s'.store.cache[key] == s.store.cache[key]
    ensures Spaced(s', key, since)
  {
  }

  lemma FinishElsewhereKeepsSpaced(s: State, t: nat, at: int, key: Key, since: nat)
    requires Spaced(s, key, since) && at >= s.clock
    requires t in s.tasks && s.tasks[t].Loading? && s.tasks[t].load.key != key
    requires key in s.store.locks ==> key in Next(s, Finish(t, at)).store.locks
    ensures Spaced(Next(s, Finish(t, at)), key, since)
  {
    var s', load := Next(s, Finish(t, at)), s.tasks[t].load;
    FinishStores(s, t, at);
    FinishLeaves(s, t, at, key);
    ElsewhereKeepsSpaced(s, s', key, since, Result(load.key, load, at, s.tick + 1, false));
  }

  lemma AllStartedBefore(s: State, key: Key, since: nat, t: nat)
    requires Spaced(s, key, since) && t in s.tasks && s.tasks[t].Loading? && s.tasks[t].load.key == key
    ensures StartedBy(s.results, key, since, s.tasks[t].load.startedAt)
  {
    if Returned(s.results, key, since) {
      StartedByLater(s.results, key, since, s.store.cache[key].expires - TTL, s.tasks[t].load.startedAt);
    } else {
      NoneStarted(s.results, key, since, s.tasks[t].load.startedAt);
    }
  }

  lemma FinishKeepsSpaced(s: State, t: nat, at: int, key: Key, since: nat)
    requires Inv(s) && Spaced(s, key, since) && at >= s.clock
    requires t in s.tasks && s.tasks[t].Loading? && s.tasks[t].load.key == key
    requires key in s.store.locks ==> key in Next(s, Finish(t, at)).store.locks
    ensures Spaced(Next(s, Finish(t, at)), key, since)
  {
    var s' := Next(s, Finish(t, at));
    FinishStores(s, t, at);
    AllStartedBefore(s, key, since, t);
    forall u | u in s'.tasks && KeyOf(s'.tasks[u]) == key ensures s'.tasks[u].Waiting? {
      assert Exclusive(s, t, u);
    }
  }

  lemma {:induction false} RunKeepsSpaced(s: State, steps: History<Step>, key: Key)
    requires Inv(s) && AllShare(s, key) && !Returned(s.results, key, s.tick) && NeverPopped(s, steps, key)
    ensures Spaced(Run(s, steps), key, s.tick)
  {
    if steps.Then? {
      RunKeepsSpaced(s, steps.before, key);
      RunKeepsInv(s, steps.before);
      var s1 := Run(s, steps.before);
      match steps.latest
      case Finish(t, at) =>
        if at >= s1.clock && t in s1.tasks && s1.tasks[t].Loading? {
          if s1.tasks[t].load.key == key { FinishKeepsSpaced(s1, t, at, key, s.tick); } else { FinishElsewhereKeepsSpaced(s1, t, at, key, s.tick); }
        }
      case Abort(_, _) => StayKeepsSpaced(s1, steps.latest, key, s.tick);
      case Invalidate(_, _) => StayKeepsSpaced(s1, steps.latest, key, s.tick);
      case Enter(t, k, at) => EnterKeepsSpaced(s1, t, k, at, key, s.tick);
      case Wake(t, at) => WakeKeepsSpaced(s1, t, at, key, s.tick);
    }
  }

  lemma SpacedLoad(s: State, key: Key, since: nat, t: nat)
    requires Spaced(s, key, since) && t in s.tasks && s.tasks[t].Loading? && s.tasks[t].load.key == key
    ensures StartedBy(s.results, key, since, s.tasks[t].load.startedAt - TTL)
  {
    var bound := s.tasks[t].load.startedAt - TTL;
    if Returned(s.results, key, since) {
      StartedByLater(s.results, key, since, s.store.cache[key].expires - TTL, bound);
    } else {
      NoneStarted(s.results, key, since, bound);
    }
  }

  lemma {:induction false} NoneReturnedYet(results: History<Result>, key: Key, tick: nat)
    requires TicksBy(results, tick)
    ensures !Returned(results, key, tick)
  {
    if results.Then? {
      NoneReturnedYet(results.before, key, tick);
    }
  }

  /** Single flight over time: as long as the key is not popped, and from a state in which nobody on it
      has a lock that was popped earlier, a load of the key starts only when every load of it that has
      returned meanwhile started at least the time to live before. */
  lemma OneLoadPerLifetime(before: History<Step>, steps: History<Step>, key: Key, t: nat)
    requires var s := Run(INITIAL, before); AllShare(s, key) && NeverPopped(s, steps, key)
    requires var s' := Run(Run(INITIAL, before), steps); t in s'.tasks && s'.tasks[t].Loading? && s'.tasks[t].load.key == key
    ensures var s := Run(INITIAL, before);
            var s' := Run(s, steps);
            StartedBy(s'.results, key, s.tick, s'.tasks[t].load.startedAt - TTL)
  {
    var s := Run(INITIAL, before);
    InitialInv();
    RunKeepsInv(INITIAL, before);
    RunTicks(before);
    NoneReturnedYet(s.results, key, s.tick);
    RunKeepsSpaced(s, steps, key);
    SpacedLoad(Run(s, steps), key, s.tick, t);
  }

  lemma FirstReturns(s: State, key: Key, at: nat)
    requires s.tasks == map[1 := Loading(0, Load(key, at, 1))] && s.store == Store(map[], [], map[key := 0])
    requires s.clock == at && s.tick == 1 && s.nextLock == 1
    ensures var s' := Next(s, Finish(1, at));
            && s'.store == Store(map[key := Entry(at + TTL, Load(key, at, 1))], [key], map[key := 0]) && s'.tasks == map[]
            && s'.clock == at && s'.tick == 2 && s'.nextLock == 1
  {
  }

  lemma FirstLoad(key: Key, at: nat)
    ensures var s := Next(Next(INITIAL, Enter(1, key, at)), Finish(1, at));
            && s.store == Store(map[key := Entry(at + TTL, Load(key, at, 1))], [key], map[key := 0]) && s.tasks == map[]
            && s.clock == at && s.tick == 2 && s.nextLock == 1
  {
    var s1 := Next(INITIAL, Enter(1, key, at));
    assert s1.tasks == map[1 := Loading(0, Load(key, at, 1))] && s1.store == Store(map[], [], map[key := 0]);
    FirstReturns(s1, key, at);
  }

  lemma SecondLoad(s: State, key: Key, at: nat)
    requires s.store == Store(map[key := Entry(at + TTL, Load(key, at, 1))], [key], map[key := 0]) && s.tasks == map[]
    requires s.clock == at && s.tick == 2 && s.nextLock == 1
    ensures UnderOldLock(Next(Next(s, Enter(2, key, at + TTL)), Invalidate(key.user, at + TTL)), key, at)
  {
    var s1 := Next(s, Enter(2, key, at + TTL));
    assert s1.tasks == map[2 := Loading(0, Load(key, at + TTL, 3))] && s1.store == s.store;
    assert OwnedBy(s1.store, key.user) == {key} && Without([key], {key}) == [];
  }

  /** Two loads of a key under different locks: the older one was in flight when its lock was popped. */
  lemma TwoLocks(key: Key, at: nat) returns (before: History<Step>)
    ensures UnderOldLock(Run(INITIAL, before), key, at)
  {
    var one := Then(Start, Enter(1, key, at));
    var two := Then(one, Finish(1, at));
    var three := Then(two, Enter(2, key, at + TTL));
    before := Then(three, Invalidate(key.user, at + TTL));
    FirstLoad(key, at);
    assert Run(INITIAL, Start) == INITIAL && Run(INITIAL, one) == Next(INITIAL, Enter(1, key, at));
    SecondLoad(Run(INITIAL, two), key, at);
    assert Run(INITIAL, three) == Next(Run(INITIAL, two), Enter(2, key, at + TTL));
  }

  /** The state of `TwoLocks`. */
  predicate UnderOldLock(s: State, key: Key, at: nat) {
    && s.clock == at + TTL && s.store == Store(map[], [], map[]) && s.nextLock == 1 && s.tick == 4
    && s.tasks == map[2 := Loading(0, Load(key, at + TTL, 3))]
  }

  lemma NewcomerLoads(s: State, key: Key, at: nat)
    requires UnderOldLock(s, key, at)
    ensures var s1 := Next(s, Enter(3, key, at + 6));
            && s1.tasks == map[2 := Loading(0, Load(key, at + TTL, 3)), 3 := Loading(1, Load(key, at + 6, 5))]
            && s1.store == Store(map[], [], map[key := 1]) && s1.clock == at + 6 && s1.tick == 5
  {
  }

  lemma NewcomerReturns(s: State, key: Key, at: nat)
    requires s.store == Store(map[], [], map[key := 1]) && s.clock == at + 6 && s.tick == 5
    requires s.tasks == map[2 := Loading(0, Load(key, at + TTL, 3)), 3 := Loading(1, Load(key, at + 6, 5))]
    ensures var s2 := Next(s, Finish(3, at + 6));
            && s2.tasks == map[2 := Loading(0, Load(key, at + TTL, 3))]
            && s2.store == Store(map[key := Entry(at + 6 + TTL, Load(key, at + 6, 5))], [key], map[key := 1])
            && s2.results == Then(s.results, Result(key, Load(key, at + 6, 5), at + 6, 6, false))
            && s2.clock == at + 6 && s2.tick == 6
  {
    assert Next(s, Finish(3, at + 6)).tasks == map[2 := Loading(0, Load(key, at + TTL, 3))];
  }

  lemma OldLoadReturns(s: State, key: Key, at: nat)
    requires s.store == Store(map[key := Entry(at + 6 + TTL, Load(key, at + 6, 5))], [key], map[key := 1])
    requires s.tasks == map[2 := Loading(0, Load(key, at + TTL, 3))] && s.clock == at + 6 && s.tick == 6
    ensures var s3 := Next(s, Finish(2, at + 7));
            var s4 := Next(s3, Enter(4, key, at + 10));
            && s3.tasks == map[] && key in s3.store.locks && key in s4.store.locks
            && s4.tasks == map[4 := Loading(1, Load(key, at + 10, 8))]
            && s3.results.Then? && s3.results.before == s.results && s4.results == s3.results
  {
    var s3 := Next(s, Finish(2, at + 7));
    assert s3.tasks == map[];
    assert s3.store.cache[key] == Entry(at + 10, Load(key, at + TTL, 3)) && s3.store.locks == map[key := 1];
  }

  /** The condition on old locks is needed, for every key and time: the load under the popped lock comes
      back last and shortens the entry, and the next load starts a second too early. */
  lemma OldLockShortensEntry(key: Key, at: nat) returns (before: History<Step>, steps: History<Step>, t: nat)
    ensures var s := Run(INITIAL, before);
            var s' := Run(s, steps);
            && NeverPopped(s, steps, key)
            && t in s'.tasks && s'.tasks[t].Loading? && s'.tasks[t].load.key == key
            && !StartedBy(s'.results, key, s.tick, s'.tasks[t].load.startedAt - TTL)
  {
    before := TwoLocks(key, at);
    var s := Run(INITIAL, before);
    var one := Then(Start, Enter(3, key, at + 6));
    var two := Then(one, Finish(3, at + 6));
    var three := Then(two, Finish(2, at + 7));
    steps, t := Then(three, Enter(4, key, at + 10)), 4;
    assert Run(s, Start) == s;
    NewcomerLoads(s, key, at);
    NewcomerReturns(Run(s, one), key, at);
    OldLoadReturns(Run(s, two), key, at);
    assert NeverPopped(s, one, key) && NeverPopped(s, two, key) && NeverPopped(s, three, key);
    assert !StartedBy(Run(s, two).results, key, s.tick, at + TTL);
  }
}
