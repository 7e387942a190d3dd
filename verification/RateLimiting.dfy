/** Admission control for the public routes: a fixed-window counter shared in
    Redis, a sliding window per process for when Redis does not answer, and the
    circuit breaker that chooses between them.  One policy and identity, that is
    one key, throughout the state machine; the classes keep many keys. */
module RateLimiting {
  import opened SlidingWindow

  /** Times are in ticks of a clock that is finer than a second. */
  const TICK := 1000000
  const BREAKER := 30 * TICK

  datatype Policy = Policy(maxRequests: nat, windowSeconds: nat)

  function Window(p: Policy): nat { p.windowSeconds * TICK }

  /** Every configured policy admits something and has a window. */
  predicate Usable(p: Policy) { p.maxRequests >= 1 && p.windowSeconds >= 1 }

  datatype RateLimitResult = RateLimitResult(allowed: bool, retryAfterSeconds: int)

  function Max(a: int, b: int): int { if a < b then b else a }

  // ---------------------------------------------------------------- Redis

  /** A Redis key.  An expired counter reads as a missing one. */
  datatype Counter = Missing | Counter(count: nat, expiresAt: int)

  function Get(c: Counter, now: int): Counter {
    if c.Counter? && now < c.expiresAt then c else Missing
  }

  /** TTL answers in seconds, rounded to the nearest. */
  function Seconds(ticks: int): int { (2 * ticks + TICK) / (2 * TICK) }

  datatype Reply = Reply(allowed: bool, ttl: int, after: Counter)

  /** The Lua script, run atomically at `now`. */
  function ReserveScript(c: Counter, p: Policy, now: int): (r: Reply)
    ensures r.after.Counter?
  {
    var current := Get(c, now);
    if current.Counter? && current.count >= p.maxRequests then
      Reply(false, Seconds(current.expiresAt - now), current)
    else
      var count := if current.Counter? then current.count + 1 else 1;
      var expiresAt := if count == 1 then now + Window(p) else current.expiresAt;
      Reply(true, Seconds(expiresAt - now), Counter(count, expiresAt))
  }

  // ---------------------------------------------------------------- the process-local fallback

  function Popped(hits: seq<int>, cutoff: int): seq<int> {
    if hits != [] && hits[0] <= cutoff then Popped(hits[1..], cutoff) else hits
  }

  /** `int` drops the fraction of the seconds left, which are positive. */
  function LocalReserve(hits: seq<int>, p: Policy, now: int): (seq<int>, RateLimitResult)
    requires Usable(p)
  {
    var kept := Popped(hits, now - Window(p));
    if |kept| >= p.maxRequests then
      (kept, RateLimitResult(false, Max(1, (Window(p) - (now - kept[0])) / TICK)))
    else
      (kept + [now], RateLimitResult(true, 0))
  }

  // ---------------------------------------------------------------- one reservation

  datatype Process = Process(hits: seq<int>, unavailableUntil: int)

  /** How a call to Redis ends, as the process sees it. */
  datatype Outcome = Replied | NotExecuted | ReplyLost

  datatype Reservation = Reservation(redis: Counter, process: Process, byRedis: bool, result: RateLimitResult)

  /** A reservation that nothing interleaves with. */
  function ReserveOnce(c: Counter, proc: Process, p: Policy, now: int, outcome: Outcome): (r: Reservation)
    requires Usable(p)
    ensures r.byRedis ==> r.redis.Counter?
  {
    if now >= proc.unavailableUntil && outcome.Replied? then
      var reply := ReserveScript(c, p, now);
      Reservation(reply.after, proc, true, RateLimitResult(reply.allowed, if reply.allowed then 0 else Max(1, reply.ttl)))
    else
      var (hits, result) := LocalReserve(proc.hits, p, now);
      if now >= proc.unavailableUntil then
        Reservation(if outcome.ReplyLost? then ReserveScript(c, p, now).after else c,
                    Process(hits, now + BREAKER), false, result)
      else
        Reservation(c, Process(hits, proc.unavailableUntil), false, result)
  }

  // ---------------------------------------------------------------- runs of p processes

  /** Where a reservation is: decided in the process, sent to Redis, or run by Redis. */
  datatype Phase = Local | Sent | Executed(allowed: bool)

  /** It is open while the coroutine awaits Redis; one given up may still reach the server. */
  datatype Call = Call(process: nat, at: int, phase: Phase, open: bool)

  /** The steps of reservations, which overlap freely: the test of the breaker, the script, its
      reply, a failure (before or after the script ran), and a failure of another key's call. */
  datatype Event =
    | Begin(call: nat, process: nat, at: int)
    | Execute(call: nat, at: int)
    | Answer(call: nat, at: int)
    | Fail(call: nat, at: int)
    | FailElsewhere(process: nat, at: int)

  /** A slot taken at Redis, in the counter lifetime that began at `lifetime`, or in a process. */
  datatype Grant = ByRedis(at: int, lifetime: int, call: nat) | ByProcess(at: int, index: nat)

  /** `answered` are the calls that Redis admitted and whose reply arrived. */
  datatype System = System(redis: Counter, processes: seq<Process>, calls: map<nat, Call>, grants: History<Grant>, answered: set<nat>)

  /** The fallback, with the breaker's new setting. */
  function Locally(p: Policy, s: System, i: nat, at: int, until: int): System
    requires Usable(p) && i < |s.processes|
  {
    var (hits, result) := LocalReserve(s.processes[i].hits, p, at);
    s.(processes := s.processes[i := Process(hits, until)],
       grants := if result.allowed then Then(s.grants, ByProcess(at, i)) else s.grants)
  }

  /** An event that is not possible changes nothing. */
  function Step(p: Policy, s: System, e: Event): System
    requires Usable(p)
  {
    match e
    case Begin(c, i, at) =>
      if c in s.calls || i >= |s.processes| then s
      else if at >= s.processes[i].unavailableUntil then s.(calls := s.calls[c := Call(i, at, Sent, true)])
      else Locally(p, s, i, at, s.processes[i].unavailableUntil).(calls := s.calls[c := Call(i, at, Local, false)])
    case Execute(c, at) =>
      if c !in s.calls || !s.calls[c].phase.Sent? then s
      else
        var r := ReserveScript(s.redis, p, at);
        s.(redis := r.after,
           calls := s.calls[c := s.calls[c].(phase := Executed(r.allowed))],
           grants := if r.allowed then Then(s.grants, ByRedis(at, r.after.expiresAt - Window(p), c)) else s.grants)
    case Answer(c, _) =>
      if c !in s.calls || !s.calls[c].open || !s.calls[c].phase.Executed? then s
      else s.(calls := s.calls[c := s.calls[c].(open := false)],
              answered := if s.calls[c].phase.allowed then s.answered + {c} else s.answered)
    case Fail(c, at) =>
      if !Fails(s, e) then s
      else Locally(p, s, s.calls[c].process, at, at + BREAKER).(calls := s.calls[c := s.calls[c].(open := false)])
    case FailElsewhere(i, at) =>
      if i >= |s.processes| then s
      else s.(processes := s.processes[i := s.processes[i].(unavailableUntil := at + BREAKER)])
  }

  /** An open call fails. */
  predicate Fails(s: System, e: Event) {
    e.Fail? && e.call in s.calls && s.calls[e.call].open && s.calls[e.call].process < |s.processes|
  }

  function Initial(n: nat): System {
    System(Missing, seq(n, i => Process([], 0)), map[], Start, {})
  }

  function Run(p: Policy, n: nat, events: History<Event>): System
    requires Usable(p)
  {
    match events
    case Start => Initial(n)
    case Then(before, e) => Step(p, Run(p, n, before), e)
  }

  /** The events of a reservation at one instant. */
  function Whole(p: Policy, s: System, c: nat, i: nat, at: int, outcome: Outcome): System
    requires Usable(p)
  {
    var begun := Step(p, s, Begin(c, i, at));
    match outcome
    case Replied => Step(p, Step(p, begun, Execute(c, at)), Answer(c, at))
    case NotExecuted => Step(p, begun, Fail(c, at))
    case ReplyLost => Step(p, Step(p, begun, Execute(c, at)), Fail(c, at))
  }

  function EventTimes(events: History<Event>): Times {
    match events
    case Start => Start
    case Then(before, e) => Then(EventTimes(before), e.at)
  }

  function GrantTimes(grants: History<Grant>): Times {
    match grants
    case Start => Start
    case Then(before, g) => Then(GrantTimes(before), g.at)
  }

  /** The requests admitted in (lo, hi]: a slot of a process, or one of Redis whose reply arrived. */
  function Admitted(grants: History<Grant>, answered: set<nat>, lo: int, hi: int): nat {
    match grants
    case Start => 0
    case Then(before, g) =>
      Admitted(before, answered, lo, hi) + if lo < g.at <= hi && (g.ByRedis? ==> g.call in answered) then 1 else 0
  }

  lemma {:induction false} AdmittedAreGrants(grants: History<Grant>, answered: set<nat>, lo: int, hi: int)
    ensures Admitted(grants, answered, lo, hi) <= CountIn(GrantTimes(grants), lo, hi)
  {
    if grants.Then? {
      AdmittedAreGrants(grants.before, answered, lo, hi);
    }
  }

  predicate NoSlotOf(grants: History<Grant>, c: nat) {
    grants.Then? ==> (grants.latest.ByRedis? ==> grants.latest.call != c) && NoSlotOf(grants.before, c)
  }

  lemma {:induction false} AnswerOfOthers(grants: History<Grant>, answered: set<nat>, c: nat, lo: int, hi: int)
    requires NoSlotOf(grants, c)
    ensures Admitted(grants, answered + {c}, lo, hi) == Admitted(grants, answered, lo, hi)
  {
    if grants.Then? {
      AnswerOfOthers(grants.before, answered, c, lo, hi);
    }
  }

  lemma {:induction false} SlotsAreOfCalls(p: Policy, n: nat, events: History<Event>, c: nat)
    requires Usable(p) && c !in Run(p, n, events).calls
    ensures NoSlotOf(Run(p, n, events).grants, c) && c !in Run(p, n, events).answered
  {
    if events.Then? {
      SlotsAreOfCalls(p, n, events.before, c);
    }
  }

  /** When nothing comes between them, the events of a reservation leave counter and process as the
      handler does, and admit one request more exactly if it is allowed. */
  lemma WholeIsReserveOnce(p: Policy, n: nat, events: History<Event>, c: nat, i: nat, at: int, outcome: Outcome)
    requires Usable(p) && c !in Run(p, n, events).calls && i < |Run(p, n, events).processes|
    ensures
      var s := Run(p, n, events);
      var r, s' := ReserveOnce(s.redis, s.processes[i], p, at, outcome), Whole(p, s, c, i, at, outcome);
      && c in s'.calls && !s'.calls[c].open
      && s'.redis == r.redis
      && s'.processes == s.processes[i := r.process]
      && Admitted(s'.grants, s'.answered, at - 1, at)
           == Admitted(s.grants, s.answered, at - 1, at) + if r.result.allowed then 1 else 0
  {
    var s := Run(p, n, events);
    SlotsAreOfCalls(p, n, events, c);
    AnswerOfOthers(s.grants, s.answered, c, at - 1, at);
    if at >= s.processes[i].unavailableUntil {
      SentIsReserveOnce(p, s, c, i, at, outcome);
    }
  }

  lemma SentIsReserveOnce(p: Policy, s: System, c: nat, i: nat, at: int, outcome: Outcome)
    requires Usable(p) && c !in s.calls && c !in s.answered && i < |s.processes| && at >= s.processes[i].unavailableUntil
    requires Admitted(s.grants, s.answered + {c}, at - 1, at) == Admitted(s.grants, s.answered, at - 1, at)
    ensures
      var r, s' := ReserveOnce(s.redis, s.processes[i], p, at, outcome), Whole(p, s, c, i, at, outcome);
      && c in s'.calls && !s'.calls[c].open
      && s'.redis == r.redis
      && s'.processes == s.processes[i := r.process]
      && Admitted(s'.grants, s'.answered, at - 1, at)
           == Admitted(s.grants, s.answered, at - 1, at) + if r.result.allowed then 1 else 0
  {
    var begun := Step(p, s, Begin(c, i, at));
    assert begun.processes == s.processes && begun.grants == s.grants && begun.calls[c] == Call(i, at, Sent, true);
    if !outcome.NotExecuted? {
      var run := Step(p, begun, Execute(c, at));
      assert run.processes == s.processes && run.calls[c].open && run.calls[c].phase.Executed?;
      assert Admitted(run.grants, s.answered, at - 1, at) == Admitted(s.grants, s.answered, at - 1, at);
    }
  }

  function LocalTimes(grants: History<Grant>, index: nat): Times {
    match grants
    case Start => Start
    case Then(before, g) =>
      if g.ByProcess? && g.index == index then Then(LocalTimes(before, index), g.at) else LocalTimes(before, index)
  }

  function RedisGrants(grants: History<Grant>): History<Grant> {
    match grants
    case Start => Start
    case Then(before, g) => if g.ByRedis? then Then(RedisGrants(before), g) else RedisGrants(before)
  }

  // ---------------------------------------------------------------- counter lifetimes

  /** Grants lie in their lifetime, and different lifetimes start at least a window apart. */
  ghost predicate Lifetimes(h: History<Grant>, window: nat) {
    h.Then? ==>
      && h.latest.ByRedis?
      && h.latest.lifetime <= h.latest.at < h.latest.lifetime + window
      && Lifetimes(h.before, window)
      && Follows(h.before, h.latest.lifetime, window)
  }

  ghost predicate Follows(h: History<Grant>, lifetime: int, window: nat) {
    h.Then? ==> h.latest.ByRedis? && (h.latest.lifetime == lifetime || h.latest.lifetime + window <= lifetime)
  }

  /** Grants of one lifetime, all of them and those after its very first instant. */
  function InLifetime(h: History<Grant>, lifetime: int): nat {
    match h
    case Start => 0
    case Then(before, g) => InLifetime(before, lifetime) + if g.ByRedis? && g.lifetime == lifetime then 1 else 0
  }

  function LateInLifetime(h: History<Grant>, lifetime: int): nat {
    match h
    case Start => 0
    case Then(before, g) =>
      LateInLifetime(before, lifetime) + if g.ByRedis? && g.lifetime == lifetime && lifetime < g.at then 1 else 0
  }

  lemma {:induction false} NoneFromOldLifetimes(h: History<Grant>, window: nat, lo: int, hi: int)
    requires Lifetimes(h, window) && (h.Then? ==> h.latest.lifetime + window <= lo)
    ensures CountIn(GrantTimes(h), lo, hi) == 0
  {
    if h.Then? {
      NoneFromOldLifetimes(h.before, window, lo, hi);
    }
  }

  /** A lifetime that began before the window contributes only late grants, and hides older ones. */
  lemma {:induction false} OneLifetime(h: History<Grant>, window: nat, lifetime: int, lo: int, hi: int)
    requires Lifetimes(h, window) && Follows(h, lifetime, window) && lifetime <= lo
    ensures CountIn(GrantTimes(h), lo, hi) <= LateInLifetime(h, lifetime)
  {
    if h.Then? {
      if h.latest.lifetime == lifetime {
        OneLifetime(h.before, window, lifetime, lo, hi);
      } else {
        NoneFromOldLifetimes(h, window, lo, hi);
      }
    }
  }

  ghost predicate WithinLimit(h: History<Grant>, limit: int) {
    forall l :: LateInLifetime(h, l) <= limit - 1 && InLifetime(h, l) <= limit
  }

  lemma WithinLimitBefore(h: History<Grant>, limit: int)
    requires h.Then? && WithinLimit(h, limit)
    ensures WithinLimit(h.before, limit)
  {
    forall l ensures LateInLifetime(h.before, l) <= limit - 1 && InLifetime(h.before, l) <= limit {
      assert LateInLifetime(h, l) <= limit - 1 && InLifetime(h, l) <= limit;
    }
  }

  lemma {:induction false} TwoLifetimes(h: History<Grant>, window: nat, limit: nat, lifetime: int, lo: int, hi: int)
    requires Lifetimes(h, window) && Follows(h, lifetime, window) && lifetime <= hi <= lo + window
    requires WithinLimit(h, limit)
    ensures CountIn(GrantTimes(h), lo, hi) <= InLifetime(h, lifetime) + limit - 1
  {
    if h.Then? {
      if h.latest.lifetime == lifetime {
        WithinLimitBefore(h, limit);
        TwoLifetimes(h.before, window, limit, lifetime, lo, hi);
      } else {
        OneLifetime(h, window, h.latest.lifetime, lo, hi);
        assert LateInLifetime(h, h.latest.lifetime) <= limit - 1;
      }
    }
  }

  /** A window of the policy's length meets at most two counter lifetimes, and
      the first grant of the older one is never in it. */
  lemma {:induction false} RedisWindow(h: History<Grant>, window: nat, limit: nat, lo: int, hi: int)
    requires Lifetimes(h, window) && hi <= lo + window && WithinLimit(h, limit) && limit >= 1
    ensures CountIn(GrantTimes(h), lo, hi) <= 2 * limit - 1
  {
    if h.Then? {
      if h.latest.at <= hi {
        TwoLifetimes(h, window, limit, h.latest.lifetime, lo, hi);
        assert InLifetime(h, h.latest.lifetime) <= limit;
      } else {
        WithinLimitBefore(h, limit);
        RedisWindow(h.before, window, limit, lo, hi);
      }
    }
  }

  /** What the counter knows about the grants: it is never behind them, and a
      running lifetime has spent its first slot at its first instant. */
  ghost predicate RedisInv(p: Policy, c: Counter, h: History<Grant>, clock: int) {
    && Lifetimes(h, Window(p))
    && WithinLimit(h, p.maxRequests)
    && (c.Missing? ==> h == Start)
    && (c.Counter? ==>
          var l := c.expiresAt - Window(p);
          && 1 <= c.count <= p.maxRequests && l <= clock
          && Follows(h, l, Window(p))
          && InLifetime(h, l) <= c.count && LateInLifetime(h, l) <= c.count - 1)
  }

  lemma {:induction false} NoneFromNewLifetime(h: History<Grant>, window: nat, lifetime: int)
    requires Lifetimes(h, window) && (h.Then? ==> h.latest.lifetime < lifetime) && window >= 1
    ensures InLifetime(h, lifetime) == 0 && LateInLifetime(h, lifetime) == 0
  {
    if h.Then? {
      NoneFromNewLifetime(h.before, window, lifetime);
    }
  }

  lemma ScriptKeepsInv(p: Policy, c: Counter, h: History<Grant>, clock: int, now: int, call: nat)
    requires Usable(p) && RedisInv(p, c, h, clock) && clock <= now
    ensures var r := ReserveScript(c, p, now);
            && RedisInv(p, r.after, h, now)
            && (r.allowed ==> RedisInv(p, r.after, Then(h, ByRedis(now, r.after.expiresAt - Window(p), call)), now))
  {
    var r := ReserveScript(c, p, now);
    var l := r.after.expiresAt - Window(p);
    if Get(c, now).Missing? {
      NoneFromNewLifetime(h, Window(p), l);
    }
    assert RedisInv(p, r.after, h, now);
    if r.allowed {
      var h' := Then(h, ByRedis(now, l, call));
      assert WithinLimit(h', p.maxRequests) by {
        forall x ensures LateInLifetime(h', x) <= p.maxRequests - 1 && InLifetime(h', x) <= p.maxRequests {
          assert LateInLifetime(h, x) <= p.maxRequests - 1 && InLifetime(h, x) <= p.maxRequests;
        }
      }
    }
  }

  // ---------------------------------------------------------------- the local windows

  lemma {:induction false} PoppedAfter(h: Times, cutoff: int, now: int)
    requires UpTo(h, now)
    ensures Popped(Deque(h), cutoff) == Deque(After(h, cutoff))
    decreases |Deque(h)|
  {
    if h.Then? {
      var rest := ExpiredAtLeft(h, cutoff, now);
      if Deque(h)[0] <= cutoff {
        PoppedAfter(rest, cutoff, now);
      }
    }
  }

  /** A process's deque is its own admissions, less what an earlier prune removed. */
  ghost predicate Mirrors(hits: seq<int>, local: Times, floor: int) {
    exists cut :: cut <= floor && hits == Deque(After(local, cut))
  }

  ghost predicate LocalInv(p: Policy, hits: seq<int>, local: Times, clock: int) {
    && UpTo(local, clock)
    && Mirrors(hits, local, clock - Window(p))
    && Bounded(local, p.maxRequests, Window(p))
  }

  lemma LocalReserveKeepsInv(p: Policy, hits: seq<int>, local: Times, clock: int, now: int)
    requires Usable(p) && LocalInv(p, hits, local, clock) && clock <= now
    ensures var (hits', result) := LocalReserve(hits, p, now);
            LocalInv(p, hits', if result.allowed then Then(local, now) else local, now)
    ensures LocalReserve(hits, p, now).1.allowed <==> CountIn(local, now - Window(p), now) < p.maxRequests
  {
    var cutoff := now - Window(p);
    var cut :| cut <= clock - Window(p) && hits == Deque(After(local, cut));
    AfterUpTo(local, cut, now);
    PoppedAfter(After(local, cut), cutoff, now);
    AfterAfter(local, cut, cutoff);
    AfterLength(local, cutoff, now);
    if CountIn(local, cutoff, now) < p.maxRequests {
      AdmitKeepsBounded(local, now, p.maxRequests, Window(p));
      assert Deque(After(Then(local, now), cutoff)) == Popped(hits, cutoff) + [now];
    }
  }

  lemma LocalInvLater(p: Policy, hits: seq<int>, local: Times, clock: int, now: int)
    requires LocalInv(p, hits, local, clock) && clock <= now
    ensures LocalInv(p, hits, local, now)
  {
    var cut :| cut <= clock - Window(p) && hits == Deque(After(local, cut));
    assert cut <= now - Window(p);
  }

  /** A slot counts for the policy's window to the tick, at Redis from the request that opens the counter
      and in a process from its own request; who is admitted is told of no wait. */
  lemma SlotsLastTheWindow(c: Counter, proc: Process, p: Policy, now: int, later: int, outcome: Outcome)
    requires Usable(p) && now <= later
    ensures c.Missing? || c.expiresAt <= now ==> ReserveScript(c, p, now).after == Counter(1, now + p.windowSeconds * TICK)
    ensures p.maxRequests == 1 ==> (LocalReserve([now], p, later).1.allowed <==> now + p.windowSeconds * TICK <= later)
    ensures var r := ReserveOnce(c, proc, p, now, outcome);
            && (r.byRedis <==> now >= proc.unavailableUntil && outcome.Replied?)
            && (r.result.retryAfterSeconds == 0 <==> r.result.allowed)
  {
    var cutoff := later - Window(p);
    assert [now][1..] == [] && Popped([now], cutoff) == if now <= cutoff then [] else [now];
  }

  /** A full counter, `left` ticks before it expires, advertises the nearest number of seconds, at least
      one.  Who waits exactly so long is admitted if and only if that was not rounded down: nothing or at
      least half a second is left over a whole number of seconds, or at most one second is left in all. */
  lemma RedisRetryIsExact(c: Counter, p: Policy, now: int)
    requires Usable(p) && !ReserveScript(c, p, now).allowed
    ensures c.Counter? && now < c.expiresAt && c.count >= p.maxRequests
    ensures
      var left := c.expiresAt - now;
      var wait := ReserveOnce(c, Process([], now), p, now, Replied).result.retryAfterSeconds;
      && wait >= 1 && (wait == 1 || (2 * wait - 1) * TICK <= 2 * left < (2 * wait + 1) * TICK)
      && (2 * left < 3 * TICK ==> wait == 1)
      && (ReserveScript(c, p, now + wait * TICK).allowed <==> left % TICK == 0 || 2 * (left % TICK) >= TICK || left <= TICK)
      && ReserveScript(c, p, now + (wait + 1) * TICK).allowed
  {
  }

  /** A full process, `left` ticks before its oldest slot expires, advertises that many seconds
      rounded down, at least one.  Who waits exactly so long is admitted if and only if nothing
      was rounded off or less than a second was left; a second later he always is. */
  lemma RetryAfterIsExact(hits: seq<int>, p: Policy, now: int)
    requires Usable(p)
    requires hits == Popped(hits, now - Window(p)) && |hits| == p.maxRequests && hits[0] <= now
    ensures
      var left := Window(p) - (now - hits[0]);
      var (kept, refusal) := LocalReserve(hits, p, now);
      var wait := refusal.retryAfterSeconds;
      && !refusal.allowed && 1 <= wait <= p.windowSeconds
      && (LocalReserve(kept, p, now + wait * TICK).1.allowed <==> left % TICK == 0 || left <= TICK)
      && LocalReserve(kept, p, now + (wait + 1) * TICK).1.allowed
  {
    var wait := LocalReserve(hits, p, now).1.retryAfterSeconds;
    AdmitsAgain(hits, p, now + wait * TICK);
    AdmitsAgain(hits, p, now + (wait + 1) * TICK);
  }

  /** A full process admits again exactly when its oldest slot has expired. */
  lemma AdmitsAgain(hits: seq<int>, p: Policy, later: int)
    requires Usable(p) && |hits| == p.maxRequests
    ensures LocalReserve(hits, p, later).1.allowed <==> hits[0] + Window(p) <= later
  {
    if hits[0] <= later - Window(p) {
      PoppedShorter(hits[1..], later - Window(p));
    }
  }

  lemma {:induction false} PoppedShorter(hits: seq<int>, cutoff: int)
    ensures |Popped(hits, cutoff)| <= |hits|
  {
    if hits != [] {
      PoppedShorter(hits[1..], cutoff);
    }
  }

  // ---------------------------------------------------------------- the whole system

  ghost predicate Inv(p: Policy, s: System, n: nat, clock: int) {
    && |s.processes| == n
    && RedisInv(p, s.redis, RedisGrants(s.grants), clock)
    && (forall i :: 0 <= i < n ==> LocalInv(p, s.processes[i].hits, LocalTimes(s.grants, i), clock))
    && Attributed(s.grants, n)
  }

  ghost predicate Attributed(grants: History<Grant>, n: nat) {
    grants.Then? ==> Attributed(grants.before, n) && (grants.latest.ByProcess? ==> grants.latest.index < n)
  }

  lemma StepKeepsInv(p: Policy, s: System, n: nat, clock: int, e: Event)
    requires Usable(p) && Inv(p, s, n, clock) && clock <= e.at
    ensures Inv(p, Step(p, s, e), n, e.at)
  {
    StepKeepsRedisInv(p, s, clock, e);
    var s' := Step(p, s, e);
    forall i | 0 <= i < n ensures LocalInv(p, s'.processes[i].hits, LocalTimes(s'.grants, i), e.at) {
      assert LocalInv(p, s.processes[i].hits, LocalTimes(s.grants, i), clock);
      StepKeepsLocalInv(p, s, i, clock, e);
    }
  }

  lemma StepKeepsRedisInv(p: Policy, s: System, clock: int, e: Event)
    requires Usable(p) && RedisInv(p, s.redis, RedisGrants(s.grants), clock) && clock <= e.at
    ensures RedisInv(p, Step(p, s, e).redis, RedisGrants(Step(p, s, e).grants), e.at)
  {
    if e.Execute? {
      ScriptKeepsInv(p, s.redis, RedisGrants(s.grants), clock, e.at, e.call);
    } else {
      assert RedisGrants(Step(p, s, e).grants) == RedisGrants(s.grants) && Step(p, s, e).redis == s.redis;
    }
  }

  lemma StepKeepsLocalInv(p: Policy, s: System, i: nat, clock: int, e: Event)
    requires Usable(p) && i < |s.processes| && clock <= e.at
    requires LocalInv(p, s.processes[i].hits, LocalTimes(s.grants, i), clock)
    ensures var s' := Step(p, s, e);
            |s'.processes| == |s.processes| && LocalInv(p, s'.processes[i].hits, LocalTimes(s'.grants, i), e.at)
  {
    LocalReserveKeepsInv(p, s.processes[i].hits, LocalTimes(s.grants, i), clock, e.at);
    LocalInvLater(p, s.processes[i].hits, LocalTimes(s.grants, i), clock, e.at);
  }

  lemma InitialInv(p: Policy, n: nat, now: int)
    requires Usable(p)
    ensures Inv(p, Initial(n), n, now)
  {
    forall i | 0 <= i < n ensures LocalInv(p, Initial(n).processes[i].hits, LocalTimes(Start, i), now) {
      assert Deque(After(Start, now - Window(p))) == [];
    }
  }

  lemma InvLater(p: Policy, s: System, n: nat, clock: int, now: int)
    requires Inv(p, s, n, clock) && clock <= now
    ensures Inv(p, s, n, now)
  {
    forall i | 0 <= i < n ensures LocalInv(p, s.processes[i].hits, LocalTimes(s.grants, i), now) {
      LocalInvLater(p, s.processes[i].hits, LocalTimes(s.grants, i), clock, now);
    }
  }

  lemma {:induction false} RunKeepsInv(p: Policy, n: nat, events: History<Event>, now: int)
    requires Usable(p) && UpTo(EventTimes(events), now)
    ensures Inv(p, Run(p, n, events), n, now)
  {
    match events
    case Start => InitialInv(p, n, now);
    case Then(before, e) =>
      RunKeepsInv(p, n, before, e.at);
      StepKeepsInv(p, Run(p, n, before), n, e.at, e);
      InvLater(p, Run(p, n, events), n, e.at, now);
  }

  function SumLocal(grants: History<Grant>, n: nat, lo: int, hi: int): nat {
    if n == 0 then 0 else SumLocal(grants, n - 1, lo, hi) + CountIn(LocalTimes(grants, n - 1), lo, hi)
  }

  lemma {:induction false} SumLocalStep(before: History<Grant>, g: Grant, n: nat, lo: int, hi: int)
    ensures SumLocal(Then(before, g), n, lo, hi)
         == SumLocal(before, n, lo, hi) + if g.ByProcess? && g.index < n && lo < g.at <= hi then 1 else 0
  {
    if n > 0 {
      SumLocalStep(before, g, n - 1, lo, hi);
    }
  }

  /** Every grant is Redis's or exactly one process's. */
  lemma {:induction false} GrantsSplit(grants: History<Grant>, n: nat, lo: int, hi: int)
    requires Attributed(grants, n)
    ensures CountIn(GrantTimes(grants), lo, hi)
         == CountIn(GrantTimes(RedisGrants(grants)), lo, hi) + SumLocal(grants, n, lo, hi)
  {
    match grants
    case Start =>
      SumLocalEmpty(n, lo, hi);
    case Then(before, g) =>
      GrantsSplit(before, n, lo, hi);
      SumLocalStep(before, g, n, lo, hi);
  }

  lemma {:induction false} SumLocalEmpty(n: nat, lo: int, hi: int)
    ensures SumLocal(Start, n, lo, hi) == 0
  {
    if n > 0 {
      SumLocalEmpty(n - 1, lo, hi);
    }
  }

  lemma {:induction false} SumLocalBound(p: Policy, s: System, n: nat, m: nat, clock: int, lo: int, hi: int)
    requires Inv(p, s, n, clock) && m <= n && hi <= lo + Window(p)
    ensures SumLocal(s.grants, m, lo, hi) <= m * p.maxRequests
  {
    if m > 0 {
      SumLocalBound(p, s, n, m - 1, clock, lo, hi);
      assert Bounded(LocalTimes(s.grants, m - 1), p.maxRequests, Window(p));
      assert CountIn(LocalTimes(s.grants, m - 1), lo, hi) <= p.maxRequests;
      assert m * p.maxRequests == (m - 1) * p.maxRequests + p.maxRequests;
    }
  }

  /** However reservations overlap, and for any pattern of failures, lost replies and recoveries,
      n processes together admit at most (2 + n) * max - 1 requests in any window of the policy's length. */
  lemma AdmissionBound(p: Policy, n: nat, events: History<Event>, now: int, lo: int, hi: int)
    requires Usable(p) && UpTo(EventTimes(events), now) && hi <= lo + Window(p)
    ensures var s := Run(p, n, events);
            Admitted(s.grants, s.answered, lo, hi) <= CountIn(GrantTimes(s.grants), lo, hi) <= (2 + n) * p.maxRequests - 1
  {
    RunKeepsInv(p, n, events, now);
    var s := Run(p, n, events);
    AdmittedAreGrants(s.grants, s.answered, lo, hi);
    GrantsSplit(s.grants, n, lo, hi);
    RedisWindow(RedisGrants(s.grants), Window(p), p.maxRequests, lo, hi);
    SumLocalBound(p, s, n, n, now, lo, hi);
    assert (2 + n) * p.maxRequests == 2 * p.maxRequests + n * p.maxRequests;
  }

  /** No call to Redis fails, and the clock shows no time before its zero. */
  ghost predicate Healthy(events: History<Event>) {
    events.Then? ==> 0 <= events.latest.at && !events.latest.Fail? && !events.latest.FailElsewhere? && Healthy(events.before)
  }

  lemma {:induction false} HealthyGrantsAreRedis(p: Policy, n: nat, events: History<Event>)
    requires Usable(p) && Healthy(events)
    ensures var s := Run(p, n, events);
            && s.processes == seq(n, i => Process([], 0))
            && RedisGrants(s.grants) == s.grants
  {
    if events.Then? {
      HealthyGrantsAreRedis(p, n, events.before);
    }
  }

  /** While Redis answers, the bound does not depend on the number of processes. */
  lemma HealthyBound(p: Policy, n: nat, events: History<Event>, now: int, lo: int, hi: int)
    requires Usable(p) && Healthy(events) && UpTo(EventTimes(events), now) && hi <= lo + Window(p)
    ensures CountIn(GrantTimes(Run(p, n, events).grants), lo, hi) <= 2 * p.maxRequests - 1
  {
    RunKeepsInv(p, n, events, now);
    HealthyGrantsAreRedis(p, n, events);
    RedisWindow(RedisGrants(Run(p, n, events).grants), Window(p), p.maxRequests, lo, hi);
  }

  // ---------------------------------------------------------------- the bound is attained

  /** A run under construction, at time `now`: no call is numbered `next` or above, the processes
      from `idle` on are as new, and so many requests were admitted in the first window after 0. */
  ghost predicate Stage(p: Policy, n: nat, events: History<Event>, now: int, next: nat, redis: Counter, idle: nat, admitted: int)
    requires Usable(p)
  {
    var s := Run(p, n, events);
    && UpTo(EventTimes(events), now)
    && s.redis == redis
    && |s.processes| == n
    && (forall j :: idle <= j < n ==> s.processes[j] == Process([], 0))
    && (forall c :: c in s.calls ==> c < next)
    && Admitted(s.grants, s.answered, 0, Window(p)) == admitted
  }

  function InFirstWindow(p: Policy, at: int): int { if 0 < at <= Window(p) then 1 else 0 }

  /** One more request that Redis admits. */
  lemma AskRedis(p: Policy, n: nat, events: History<Event>, now: int, at: int, next: nat, redis: Counter, admitted: int)
    returns (more: History<Event>)
    requires Usable(p) && n >= 1 && 0 <= at && now <= at && Stage(p, n, events, now, next, redis, 0, admitted)
    requires ReserveScript(redis, p, at).allowed
    ensures Stage(p, n, more, at, next + 1, ReserveScript(redis, p, at).after, 0, admitted + InFirstWindow(p, at))
  {
    var sent := Then(events, Begin(next, 0, at));
    var run := Then(sent, Execute(next, at));
    more := Then(run, Answer(next, at));
    var s := Run(p, n, events);
    SlotsAreOfCalls(p, n, events, next);
    AnswerOfOthers(s.grants, s.answered, next, 0, Window(p));
    assert Run(p, n, sent).calls == s.calls[next := Call(0, at, Sent, true)] && Run(p, n, sent).grants == s.grants;
    assert Run(p, n, run).calls == s.calls[next := Call(0, at, Executed(true), true)];
    assert UpTo(EventTimes(sent), at);
    assert UpTo(EventTimes(run), at);
  }

  /** As many as the counter's lifetime has room for. */
  lemma {:induction false} AskRedisOften(p: Policy, n: nat, events: History<Event>, now: int, at: int, next: nat,
                                         count: nat, expiresAt: int, admitted: int, k: nat)
    returns (more: History<Event>, after: nat)
    requires Usable(p) && n >= 1 && 0 < at <= Window(p) && now <= at < expiresAt && 1 <= count && count + k <= p.maxRequests
    requires Stage(p, n, events, now, next, Counter(count, expiresAt), 0, admitted)
    ensures Stage(p, n, more, at, after, Counter(count + k, expiresAt), 0, admitted + k)
  {
    if k == 0 {
      more, after := events, next;
      UpToLater(EventTimes(events), now, at);
    } else {
      more, after := AskRedisOften(p, n, events, now, at, next, count, expiresAt, admitted, k - 1);
      more := AskRedis(p, n, more, at, at, after, Counter(count + k - 1, expiresAt), admitted + k - 1);
      after := after + 1;
    }
  }

  lemma UpToLater(h: Times, now: int, later: int)
    requires UpTo(h, now) && now <= later
    ensures UpTo(h, later)
  {
  }

  function Copies(at: int, k: nat): seq<int> { seq(k, _ => at) }

  /** The fallback of a process whose breaker is open, with k of its slots taken now. */
  ghost predicate Filled(p: Policy, n: nat, events: History<Event>, i: nat, k: nat)
    requires Usable(p)
  {
    var s := Run(p, n, events);
    i < |s.processes| && s.processes[i] == Process(Copies(Window(p), k), Window(p) + BREAKER)
  }

  lemma PoppedCopies(at: int, k: nat, cutoff: int)
    requires cutoff < at
    ensures Popped(Copies(at, k), cutoff) == Copies(at, k)
  {
  }

  /** A process finds Redis failing, and admits its own quota. */
  lemma {:induction false} Fill(p: Policy, n: nat, events: History<Event>, next: nat, redis: Counter, i: nat, admitted: int, k: nat)
    returns (more: History<Event>, after: nat)
    requires Usable(p) && i < n && 1 <= k <= p.maxRequests && Stage(p, n, events, Window(p), next, redis, i, admitted)
    ensures Stage(p, n, more, Window(p), after, redis, i + 1, admitted + k) && Filled(p, n, more, i, k)
  {
    if k == 1 {
      var sent := Then(events, Begin(next, i, Window(p)));
      more, after := Then(sent, Fail(next, Window(p))), next + 1;
      var s := Run(p, n, events);
      assert Run(p, n, sent).calls == s.calls[next := Call(i, Window(p), Sent, true)];
      assert Run(p, n, sent).processes == s.processes && Run(p, n, sent).grants == s.grants;
      assert EventTimes(sent) == Then(EventTimes(events), Window(p));
      assert LocalReserve([], p, Window(p)).0 == Copies(Window(p), 1);
    } else {
      more, after := Fill(p, n, events, next, redis, i, admitted, k - 1);
      PoppedCopies(Window(p), k - 1, 0);
      assert Copies(Window(p), k - 1) + [Window(p)] == Copies(Window(p), k);
      more, after := Then(more, Begin(after, i, Window(p))), after + 1;
    }
  }

  lemma {:induction false} FillAll(p: Policy, n: nat, events: History<Event>, next: nat, redis: Counter, m: nat, admitted: int)
    returns (more: History<Event>, after: nat)
    requires Usable(p) && m <= n && Stage(p, n, events, Window(p), next, redis, 0, admitted)
    ensures Stage(p, n, more, Window(p), after, redis, m, admitted + m * p.maxRequests)
  {
    if m == 0 {
      more, after := events, next;
    } else {
      more, after := FillAll(p, n, events, next, redis, m - 1, admitted);
      more, after := Fill(p, n, more, after, redis, m - 1, admitted + (m - 1) * p.maxRequests, p.maxRequests);
      assert m * p.maxRequests == (m - 1) * p.maxRequests + p.maxRequests;
    }
  }

  /** One request opens a counter lifetime at 0; the rest of its quota is taken just before it ends. */
  lemma FirstLifetime(p: Policy, n: nat) returns (events: History<Event>, next: nat)
    requires Usable(p) && n >= 1
    ensures Stage(p, n, events, Window(p) - 1, next, Counter(p.maxRequests, Window(p)), 0, p.maxRequests - 1)
  {
    assert Stage(p, n, Start, 0, 0, Missing, 0, 0);
    events := AskRedis(p, n, Start, 0, 0, 0, Missing, 0);
    events, next := AskRedisOften(p, n, events, 0, Window(p) - 1, 1, 1, Window(p), 0, p.maxRequests - 1);
  }

  /** The next lifetime's quota is taken as it begins. */
  lemma SecondLifetime(p: Policy, n: nat) returns (events: History<Event>, next: nat)
    requires Usable(p) && n >= 1
    ensures Stage(p, n, events, Window(p), next, Counter(p.maxRequests, 2 * Window(p)), 0, 2 * p.maxRequests - 1)
  {
    events, next := FirstLifetime(p, n);
    var first := Counter(p.maxRequests, Window(p));
    events := AskRedis(p, n, events, Window(p) - 1, Window(p), next, first, p.maxRequests - 1);
    events, next := AskRedisOften(p, n, events, Window(p), Window(p), next + 1, 1, 2 * Window(p), p.maxRequests, p.maxRequests - 1);
  }

  /** The bound is attained, for every policy and every number of processes: two lifetimes' quotas
      meet in one window, and at its end Redis fails for every process. */
  lemma BoundIsTight(p: Policy, n: nat) returns (events: History<Event>)
    requires Usable(p) && n >= 1
    ensures UpTo(EventTimes(events), Window(p))
    ensures var s := Run(p, n, events);
            Admitted(s.grants, s.answered, 0, Window(p)) == (2 + n) * p.maxRequests - 1
  {
    var next: nat;
    events, next := SecondLifetime(p, n);
    events, next := FillAll(p, n, events, next, Counter(p.maxRequests, 2 * Window(p)), n, 2 * p.maxRequests - 1);
    assert (2 + n) * p.maxRequests == 2 * p.maxRequests + n * p.maxRequests;
  }

  // ---------------------------------------------------------------- the circuit breaker

  /** The moments at which a failing call of process `index` was recorded. */
  function Failures(p: Policy, n: nat, events: History<Event>, index: nat): Times
    requires Usable(p)
  {
    match events
    case Start => Start
    case Then(before, e) =>
      var s := Run(p, n, before);
      if (Fails(s, e) && s.calls[e.call].process == index) || (e.FailElsewhere? && e.process == index) then
        Then(Failures(p, n, before, index), e.at)
      else
        Failures(p, n, before, index)
  }

  /** Every failure lies at least the breaker's time back. */
  predicate Spared(failures: Times, at: int) {
    failures.Then? ==> failures.latest + BREAKER <= at && Spared(failures.before, at)
  }

  lemma {:induction false} LatestFailureDecides(failures: Times, at: int, now: int)
    requires UpTo(failures, now)
    ensures Spared(failures, at) <==> (failures.Then? ==> failures.latest + BREAKER <= at)
  {
    if failures.Then? {
      LatestFailureDecides(failures.before, at, failures.latest);
    }
  }

  lemma {:induction false} BreakerRemembers(p: Policy, n: nat, events: History<Event>, index: nat, now: int)
    requires Usable(p) && index < n && UpTo(EventTimes(events), now)
    ensures var s, failures := Run(p, n, events), Failures(p, n, events, index);
            && |s.processes| == n
            && UpTo(failures, now)
            && s.processes[index].unavailableUntil == if failures.Then? then failures.latest + BREAKER else 0
  {
    if events.Then? {
      BreakerRemembers(p, n, events.before, index, events.latest.at);
    }
  }

  /** A reservation goes to Redis if and only if every failure that its process has recorded lies
      30 seconds back. */
  lemma ContactIsExact(p: Policy, n: nat, events: History<Event>, call: nat, index: nat, at: int)
    requires Usable(p) && index < n && UpTo(EventTimes(events), at) && 0 <= at
    requires call !in Run(p, n, events).calls
    ensures var calls := Step(p, Run(p, n, events), Begin(call, index, at)).calls;
            call in calls && (calls[call].phase.Sent? <==> Spared(Failures(p, n, events, index), at))
  {
    BreakerRemembers(p, n, events, index, at);
    LatestFailureDecides(Failures(p, n, events, index), at, at);
  }

  /** A call of the process that began after `earlier` began at least 30 seconds after `failure`. */
  ghost predicate BeganLate(s: System, earlier: map<nat, Call>, index: nat, failure: int, c: nat) {
    c in s.calls && c !in earlier && s.calls[c].process == index && !s.calls[c].phase.Local? ==> failure + BREAKER <= s.calls[c].at
  }

  lemma {:induction false} LaterCallsBeganLate(p: Policy, n: nat, earlier: History<Event>, events: History<Event>,
                                               index: nat, failure: int, now: int, c: nat)
    requires Usable(p) && index < n && UpTo(EventTimes(events), now) && Extends(events, earlier)
    requires Failures(p, n, earlier, index).Then? && Failures(p, n, earlier, index).latest == failure
    ensures var s := Run(p, n, events);
            && BeganLate(s, Run(p, n, earlier).calls, index, failure, c)
            && (c in s.calls ==> s.calls[c].at <= now)
            && (Failures(p, n, events, index).Then? && failure <= Failures(p, n, events, index).latest)
  {
    if events == earlier {
      CallsBeganBefore(p, n, events, now, c);
    } else {
      var before, e := events.before, events.latest;
      LaterCallsBeganLate(p, n, earlier, before, index, failure, e.at, c);
      BreakerRemembers(p, n, before, index, e.at);
      BreakerRemembers(p, n, events, index, now);
    }
  }

  lemma {:induction false} CallsBeganBefore(p: Policy, n: nat, events: History<Event>, now: int, c: nat)
    requires Usable(p) && UpTo(EventTimes(events), now)
    ensures c in Run(p, n, events).calls ==> Run(p, n, events).calls[c].at <= now
  {
    if events.Then? {
      CallsBeganBefore(p, n, events.before, events.latest.at, c);
    }
  }

  /** After a failure was recorded, a process pays for another failing call within 30 seconds only
      if that call was in flight already: calls begun later fail at least 30 seconds later. */
  lemma CloseFailuresWereInFlight(p: Policy, n: nat, earlier: History<Event>, events: History<Event>, index: nat, call: nat, at: int)
    requires Usable(p) && index < n && Extends(events, earlier) && UpTo(EventTimes(Then(events, Fail(call, at))), at)
    requires Failures(p, n, earlier, index).Then?
    requires Fails(Run(p, n, events), Fail(call, at)) && Run(p, n, events).calls[call].process == index
    ensures at < Failures(p, n, earlier, index).latest + BREAKER ==> call in Run(p, n, earlier).calls
  {
    LaterCallsBeganLate(p, n, earlier, events, index, Failures(p, n, earlier, index).latest, at, call);
    OpenCallsWereSent(p, n, events, call);
  }

  lemma {:induction false} OpenCallsWereSent(p: Policy, n: nat, events: History<Event>, c: nat)
    requires Usable(p)
    ensures c in Run(p, n, events).calls && Run(p, n, events).calls[c].open ==> !Run(p, n, events).calls[c].phase.Local?
  {
    if events.Then? {
      OpenCallsWereSent(p, n, events.before, c);
    }
  }

  /** What is over stays so, and a call stays with its process. */
  lemma {:induction false} OpenWasOpen(p: Policy, n: nat, earlier: History<Event>, events: History<Event>, c: nat)
    requires Usable(p) && Extends(events, earlier) && c in Run(p, n, earlier).calls
    ensures c in Run(p, n, events).calls
    ensures Run(p, n, events).calls[c].process == Run(p, n, earlier).calls[c].process
    ensures Run(p, n, events).calls[c].open ==> Run(p, n, earlier).calls[c].open
  {
    if events != earlier {
      OpenWasOpen(p, n, earlier, events.before, c);
    }
  }

  /** Later events end with a failing call of the process, paid for at `at`. */
  ghost predicate PaysAt(p: Policy, n: nat, earlier: History<Event>, events: History<Event>, index: nat, call: nat, at: int)
    requires Usable(p)
  {
    && Extends(events, earlier) && UpTo(EventTimes(Then(events, Fail(call, at))), at)
    && Fails(Run(p, n, events), Fail(call, at)) && Run(p, n, events).calls[call].process == index
  }

  /** In every continuation the process's failing calls are at least 30 seconds after `failure`. */
  ghost predicate PaysLate(p: Policy, n: nat, earlier: History<Event>, index: nat, failure: int)
    requires Usable(p)
  {
    forall events, call, at :: PaysAt(p, n, earlier, events, index, call, at) ==> failure + BREAKER <= at
  }

  /** From the moment at which a process records a failure it pays for no other failing call within 30
      seconds, in every continuation, if and only if no other call of it is open then. */
  lemma CloseFailuresAreExact(p: Policy, n: nat, earlier: History<Event>, index: nat, failure: int)
    requires Usable(p) && index < n && UpTo(EventTimes(earlier), failure)
    requires Failures(p, n, earlier, index).Then? && Failures(p, n, earlier, index).latest == failure
    ensures var calls := Run(p, n, earlier).calls;
            PaysLate(p, n, earlier, index, failure) <==> forall c :: c in calls && calls[c].process == index ==> !calls[c].open
  {
    var s := Run(p, n, earlier);
    BreakerRemembers(p, n, earlier, index, failure);
    if c :| c in s.calls && s.calls[c].process == index && s.calls[c].open {
      assert PaysAt(p, n, earlier, earlier, index, c, failure);
    } else {
      forall events, call, at | PaysAt(p, n, earlier, events, index, call, at) ensures failure + BREAKER <= at {
        CloseFailuresWereInFlight(p, n, earlier, events, index, call, at);
        if call in s.calls {
          OpenWasOpen(p, n, earlier, events, call);
        }
      }
    }
  }

  /** Two reservations of one process that both pass the test before either fails: the process pays
      for two failing calls at one moment. */
  lemma OverlappingFailures(p: Policy, n: nat, index: nat, at: nat) returns (events: History<Event>)
    requires Usable(p) && index < n
    ensures UpTo(EventTimes(events), at) && Failures(p, n, events, index) == Then(Then(Start, at), at)
  {
    var one := Then(Start, Begin(1, index, at));
    var two := Then(one, Begin(2, index, at));
    var first := Then(two, Fail(1, at));
    events := Then(first, Fail(2, at));
    assert Run(p, n, one).calls == map[1 := Call(index, at, Sent, true)];
    assert Run(p, n, two).calls == map[1 := Call(index, at, Sent, true), 2 := Call(index, at, Sent, true)];
    assert Run(p, n, first).calls == map[1 := Call(index, at, Sent, false), 2 := Call(index, at, Sent, true)];
    assert Failures(p, n, one, index) == Start && Failures(p, n, two, index) == Start;
    assert Failures(p, n, first, index) == Then(Start, at);
    assert UpTo(EventTimes(one), at);
    assert UpTo(EventTimes(two), at);
    assert UpTo(EventTimes(first), at);
  }

  // ---------------------------------------------------------------- the classes

  function Lookup<T>(m: map<string, T>, key: string, default: T): T {
    if key in m then m[key] else default
  }

  class ProcessLocalFixedWindowLimiter {
    var hits: map<string, seq<int>>

    constructor ()
      ensures hits == map[]
    {
      hits := map[];
    }

    method Reserve(key: string, p: Policy, now: int) returns (r: RateLimitResult)
      requires Usable(p)
      modifies this
      ensures (Lookup(hits, key, []), r) == LocalReserve(old(Lookup(hits, key, [])), p, now)
      ensures forall k :: k != key ==> Lookup(hits, k, []) == old(Lookup(hits, k, []))
    {
      var mine := Lookup(hits, key, []);
      var cutoff := now - Window(p);
      while mine != [] && mine[0] <= cutoff
        invariant Popped(mine, cutoff) == Popped(Lookup(hits, key, []), cutoff)
      {
        mine := mine[1..];
      }
      if |mine| >= p.maxRequests {
        r := RateLimitResult(false, Max(1, (Window(p) - (now - mine[0])) / TICK));
      } else {
        mine := mine + [now];
        r := RateLimitResult(true, 0);
      }
      hits := hits[key := mine];
    }
  }

  /** The shared server, reduced to GET, INCR, EXPIRE and TTL on counters. */
  class RedisServer {
    var counters: map<string, Counter>

    constructor ()
      ensures counters == map[]
    {
      counters := map[];
    }

    /** `_RESERVE_RATE_LIMIT`, command by command. */
    method Eval(key: string, p: Policy, now: int) returns (allowed: bool, ttl: int)
      requires Usable(p)
      modifies this
      ensures Reply(allowed, ttl, Lookup(counters, key, Missing)) == ReserveScript(old(Lookup(counters, key, Missing)), p, now)
      ensures forall k :: k != key ==> Lookup(counters, k, Missing) == old(Lookup(counters, k, Missing))
    {
      var current := Get(Lookup(counters, key, Missing), now);
      if current.Counter? && current.count >= p.maxRequests {
        return false, Seconds(current.expiresAt - now);
      }
      var count := if current.Counter? then current.count + 1 else 1;
      var expiresAt := if count == 1 then now + Window(p) else current.expiresAt;
      counters := counters[key := Counter(count, expiresAt)];
      return true, Seconds(expiresAt - now);
    }
  }

  class RedisRateLimiter {
    const client: RedisServer
    const fallback: ProcessLocalFixedWindowLimiter
    var unavailableUntil: int

    constructor (server: RedisServer)
      ensures client == server && fresh(fallback) && unavailableUntil == 0 && fallback.hits == map[]
    {
      client := server;
      fallback := new ProcessLocalFixedWindowLimiter();
      unavailableUntil := 0;
    }

    /** What this process holds for one key. */
    ghost function For(key: string): Process
      reads this, fallback
    {
      Process(Lookup(fallback.hits, key, []), unavailableUntil)
    }

    method Reserve(p: Policy, key: string, now: int, outcome: Outcome) returns (r: RateLimitResult)
      requires Usable(p)
      modifies this, client, fallback
      ensures var spec := ReserveOnce(old(Lookup(client.counters, key, Missing)), old(For(key)), p, now, outcome);
              && Lookup(client.counters, key, Missing) == spec.redis
              && For(key) == spec.process
              && r == spec.result
    {
      if now >= unavailableUntil {
        if outcome.Replied? {
          var allowed, ttl := client.Eval(key, p, now);
          return RateLimitResult(allowed, if !allowed then Max(1, ttl) else 0);
        }
        if outcome.ReplyLost? {
          var _, _ := client.Eval(key, p, now);
        }
        unavailableUntil := now + BREAKER;
      }
      r := fallback.Reserve(key, p, now);
    }
  }
}
