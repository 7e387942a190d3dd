/** Histories of time-stamped events seen through a window.  The limiters and the
    alerting deque keep only the part of such a history that has not expired. */
module SlidingWindow {

  datatype History<T> = Start | Then(before: History<T>, latest: T)

  type Times = History<int>

  /** The history is in time order and ends no later than `now`. */
  ghost predicate UpTo(h: Times, now: int) {
    h.Then? ==> h.latest <= now && UpTo(h.before, h.latest)
  }

  /** Number of entries t with lo < t <= hi. */
  function CountIn(h: Times, lo: int, hi: int): nat {
    match h
    case Start => 0
    case Then(before, t) => CountIn(before, lo, hi) + if lo < t <= hi then 1 else 0
  }

  /** The entries later than `cutoff`, in order. */
  function After(h: Times, cutoff: int): Times {
    match h
    case Start => Start
    case Then(before, t) => if cutoff < t then Then(After(before, cutoff), t) else After(before, cutoff)
  }

  /** A history as the deque that holds it, oldest entry at the left. */
  function Deque<T>(h: History<T>): seq<T> {
    match h
    case Start => []
    case Then(before, t) => Deque(before) + [t]
  }

  /** A history that continues another. */
  predicate Extends<T(==)>(longer: History<T>, shorter: History<T>) {
    longer == shorter || (longer.Then? && Extends(longer.before, shorter))
  }

  /** A later cutoff can be applied to what an earlier one left. */
  lemma {:induction false} AfterAfter(h: Times, c1: int, c2: int)
    requires c1 <= c2
    ensures After(After(h, c1), c2) == After(h, c2)
  {
    if h.Then? {
      AfterAfter(h.before, c1, c2);
    }
  }

  lemma {:induction false} AfterUpTo(h: Times, cutoff: int, now: int)
    requires UpTo(h, now)
    ensures UpTo(After(h, cutoff), now)
  {
    if h.Then? {
      AfterUpTo(h.before, cutoff, if cutoff < h.latest then h.latest else now);
    }
  }

  lemma {:induction false} CountClipped(h: Times, lo: int, hi: int, now: int)
    requires UpTo(h, now) && now <= hi
    ensures CountIn(h, lo, hi) == CountIn(h, lo, now)
  {
    if h.Then? {
      CountClipped(h.before, lo, hi, h.latest);
      CountClipped(h.before, lo, now, h.latest);
    }
  }

  lemma {:induction false} CountMonotone(h: Times, lo: int, hi: int, lo': int, hi': int)
    requires lo' <= lo && hi <= hi'
    ensures CountIn(h, lo, hi) <= CountIn(h, lo', hi')
  {
    if h.Then? {
      CountMonotone(h.before, lo, hi, lo', hi');
    }
  }

  /** What has not expired is as long as the naive count of the window. */
  lemma {:induction false} AfterLength(h: Times, lo: int, now: int)
    requires UpTo(h, now)
    ensures |Deque(After(h, lo))| == CountIn(h, lo, now)
  {
    if h.Then? {
      AfterLength(h.before, lo, h.latest);
      CountClipped(h.before, lo, now, h.latest);
    }
  }

  lemma {:induction false} OldestFirst(h: Times, now: int)
    requires UpTo(h, now) && h.Then?
    ensures Deque(h)[0] <= now
  {
    if h.before.Then? {
      OldestFirst(h.before, h.latest);
    }
  }

  /** On a history in time order the expired entries sit at the left end of its deque. */
  lemma {:induction false} ExpiredAtLeft(h: Times, cutoff: int, now: int) returns (rest: Times)
    requires UpTo(h, now) && h.Then?
    ensures Deque(h)[0] <= cutoff ==> After(h, cutoff) == After(rest, cutoff)
    ensures cutoff < Deque(h)[0] ==> After(h, cutoff) == h
    ensures UpTo(rest, now) && Deque(rest) == Deque(h)[1..]
  {
    if h.before.Start? {
      assert Deque(h) == [h.latest];
      rest := Start;
    } else {
      OldestFirst(h.before, h.latest);
      assert Deque(h.before) != [] && Deque(h)[0] == Deque(h.before)[0];
      var r := ExpiredAtLeft(h.before, cutoff, h.latest);
      rest := Then(r, h.latest);
    }
  }

  /** No window (lo, hi] of at most the given length holds more than `limit` entries.
      Times are integers, so [a, a + W) is the window (a - 1, a - 1 + W]. */
  ghost predicate Bounded(h: Times, limit: int, window: int) {
    forall lo, hi :: hi <= lo + window ==> CountIn(h, lo, hi) <= limit
  }

  /** Admitting at `now` when the trailing window has room keeps every window bounded. */
  lemma AdmitKeepsBounded(h: Times, now: int, limit: int, window: int)
    requires 0 <= window && Bounded(h, limit, window) && UpTo(h, now)
    requires CountIn(h, now - window, now) < limit
    ensures Bounded(Then(h, now), limit, window)
  {
    forall lo, hi | hi <= lo + window ensures CountIn(Then(h, now), lo, hi) <= limit {
      if lo < now <= hi {
        CountClipped(h, lo, hi, now);
        CountMonotone(h, lo, now, now - window, now);
      }
    }
  }

  /** The deque loop the limiters share: pop from the left while expired. */
  method PopExpired(hits: seq<int>, cutoff: int, ghost h: Times, ghost now: int) returns (kept: seq<int>)
    requires UpTo(h, now) && hits == Deque(h)
    ensures kept == Deque(After(h, cutoff))
  {
    kept := hits;
    ghost var k := h;
    while kept != [] && kept[0] <= cutoff
      invariant UpTo(k, now) && kept == Deque(k) && After(k, cutoff) == After(h, cutoff)
      decreases |kept|
    {
      k := ExpiredAtLeft(k, cutoff, now);
      kept := kept[1..];
    }
    if kept != [] {
      ghost var _ := ExpiredAtLeft(k, cutoff, now);
    }
  }
}
