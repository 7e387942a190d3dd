/** The edge-triggered alert on the rate of server errors.  The reference is the
    complete history of outcomes; the service keeps a deque and one latch. */
module ErrorRateAlert {
  import opened SlidingWindow

  datatype Settings = Settings(thresholdPercent: real, minimumRequests: nat, windowSeconds: nat)
  datatype Event = Event(at: int, isError: bool)

  type Log = History<Event>

  ghost predicate InOrder(log: Log, now: int) {
    log.Then? ==> log.latest.at <= now && InOrder(log.before, log.latest.at)
  }

  /** The events not earlier than `cutoff`; one exactly at the cutoff still counts. */
  function Since(log: Log, cutoff: int): Log {
    match log
    case Start => Start
    case Then(before, e) => if cutoff <= e.at then Then(Since(before, cutoff), e) else Since(before, cutoff)
  }

  function Requests(log: Log): nat {
    if log.Start? then 0 else Requests(log.before) + 1
  }

  function Errors(log: Log): nat {
    if log.Start? then 0 else Errors(log.before) + if log.latest.isError then 1 else 0
  }

  /** The percentage of errors, 0 without requests, reaches the threshold: 100 * errors / requests
      is compared by multiplying out. */
  predicate RateIsHigh(s: Settings, requests: nat, errors: nat) {
    && requests >= s.minimumRequests
    && if requests == 0 then 0.0 >= s.thresholdPercent
       else (100 * errors) as real >= s.thresholdPercent * (requests as real)
  }

  /** The threshold condition at the latest event, read off the whole history. */
  predicate Elevated(s: Settings, log: Log) {
    log.Then? &&
    var recent := Since(log, log.latest.at - s.windowSeconds);
    RateIsHigh(s, Requests(recent), Errors(recent))
  }

  /** How often the condition became true over the whole history. */
  function RisingEdges(s: Settings, log: Log): nat {
    if log.Start? then 0
    else RisingEdges(s, log.before) + if Elevated(s, log) && !Elevated(s, log.before) then 1 else 0
  }

  lemma {:induction false} SinceSince(log: Log, c1: int, c2: int)
    requires c1 <= c2
    ensures Since(Since(log, c1), c2) == Since(log, c2)
  {
    if log.Then? {
      SinceSince(log.before, c1, c2);
    }
  }

  lemma {:induction false} SinceInOrder(log: Log, cutoff: int, now: int)
    requires InOrder(log, now)
    ensures InOrder(Since(log, cutoff), now)
  {
    if log.Then? {
      SinceInOrder(log.before, cutoff, if cutoff <= log.latest.at then log.latest.at else now);
    }
  }

  lemma {:induction false} OldestEvent(log: Log, now: int)
    requires InOrder(log, now) && log.Then?
    ensures Deque(log)[0].at <= now
  {
    if log.before.Then? {
      OldestEvent(log.before, log.latest.at);
    }
  }

  lemma {:induction false} StaleAtLeft(log: Log, cutoff: int, now: int) returns (rest: Log)
    requires InOrder(log, now) && log.Then?
    ensures Deque(log)[0].at < cutoff ==> Since(log, cutoff) == Since(rest, cutoff)
    ensures cutoff <= Deque(log)[0].at ==> Since(log, cutoff) == log
    ensures InOrder(rest, now) && Deque(rest) == Deque(log)[1..]
  {
    if log.before.Start? {
      assert Deque(log) == [log.latest];
      rest := Start;
    } else {
      OldestEvent(log.before, log.latest.at);
      assert Deque(log.before) != [] && Deque(log)[0] == Deque(log.before)[0];
      var r := StaleAtLeft(log.before, cutoff, log.latest.at);
      rest := Then(r, log.latest);
    }
  }

  /** `sum(is_error for _, is_error in events)`. */
  function ErrorCount(events: seq<Event>): nat {
    if events == [] then 0
    else ErrorCount(events[..|events| - 1]) + if events[|events| - 1].isError then 1 else 0
  }

  lemma {:induction false} DequeCounts(log: Log)
    ensures |Deque(log)| == Requests(log) && ErrorCount(Deque(log)) == Errors(log)
  {
    if log.Then? {
      DequeCounts(log.before);
      assert Deque(log)[..|Deque(log)| - 1] == Deque(log.before);
    }
  }

  ghost predicate NoErrorsSince(log: Log, cutoff: int) {
    log.Then? ==> NoErrorsSince(log.before, cutoff) && (cutoff <= log.latest.at ==> !log.latest.isError)
  }

  lemma {:induction false} NoErrorsLeft(log: Log, cutoff: int)
    ensures Errors(Since(log, cutoff)) == 0 <==> NoErrorsSince(log, cutoff)
  {
    if log.Then? {
      NoErrorsLeft(log.before, cutoff);
    }
  }

  /** With a positive threshold, a window without a server error clears the alert, however many
      errors came before it. */
  lemma QuietWindowClears(s: Settings, log: Log)
    requires s.thresholdPercent > 0.0 && log.Then? && NoErrorsSince(log, log.latest.at - s.windowSeconds)
    ensures !Elevated(s, log)
  {
    NoErrorsLeft(log, log.latest.at - s.windowSeconds);
    NoErrorsIsLow(s, Requests(Since(log, log.latest.at - s.windowSeconds)));
  }

  lemma NoErrorsIsLow(s: Settings, requests: nat)
    requires s.thresholdPercent > 0.0
    ensures !RateIsHigh(s, requests, 0)
  {
    if requests > 0 {
      Scaled(requests as real, 1.0, s.thresholdPercent);
    }
  }

  /** An alert stands for enough errors inside its window, whatever the traffic: at least the
      threshold's share of the least number of requests that is looked at. */
  lemma AlertNeedsErrors(s: Settings, log: Log)
    requires s.thresholdPercent >= 0.0 && s.minimumRequests >= 1 && Elevated(s, log)
    ensures (100 * Errors(Since(log, log.latest.at - s.windowSeconds))) as real
         >= s.thresholdPercent * (s.minimumRequests as real)
  {
    var recent := Since(log, log.latest.at - s.windowSeconds);
    HighNeedsErrors(s, Requests(recent), Errors(recent));
  }

  lemma HighNeedsErrors(s: Settings, requests: nat, errors: nat)
    requires RateIsHigh(s, requests, errors)
    requires s.thresholdPercent >= 0.0 && s.minimumRequests >= 1
    ensures (100 * errors) as real >= s.thresholdPercent * (s.minimumRequests as real)
  {
    Scaled(requests as real, s.minimumRequests as real, s.thresholdPercent);
  }

  lemma Scaled(a: real, b: real, c: real)
    requires a >= b && c >= 0.0
    ensures a * c >= b * c
  {
  }

  /** The percentage of errors, 0 without requests. */
  function Percent(requests: nat, errors: nat): real {
    if requests == 0 then 0.0 else (100 * errors) as real / requests as real
  }

  lemma Compared(q: real, num: real, den: real, c: real)
    requires den > 0.0 && q * den == num
    ensures q >= c <==> num >= c * den
  {
    if q >= c { Scaled(q, c, den); } else { ScaledStrictly(c, q, den); }
  }

  lemma ScaledStrictly(a: real, b: real, c: real)
    requires a > b && c > 0.0
    ensures a * c > b * c
  {
  }

  lemma Quotient(num: real, den: real)
    requires den > 0.0
    ensures num / den * den == num
  {
  }

  lemma RateIsPercent(s: Settings, requests: nat, errors: nat)
    ensures RateIsHigh(s, requests, errors) <==> requests >= s.minimumRequests && Percent(requests, errors) >= s.thresholdPercent
  {
    if requests > 0 {
      var num, den := (100 * errors) as real, requests as real;
      Quotient(num, den);
      Compared(num / den, num, den, s.thresholdPercent);
    }
  }

  /** The condition is the one that the service computes: enough requests in the window, and 100 times
      the errors over the requests, or 0 without any, reaches the threshold. */
  lemma ElevatedIsExact(s: Settings, log: Log)
    requires log.Then?
    ensures
      var recent := Deque(Since(log, log.latest.at - s.windowSeconds));
      Elevated(s, log) <==> |recent| >= s.minimumRequests && Percent(|recent|, ErrorCount(recent)) >= s.thresholdPercent
  {
    var recent := Since(log, log.latest.at - s.windowSeconds);
    DequeCounts(recent);
    RateIsPercent(s, Requests(recent), Errors(recent));
  }

  /** With a threshold of at most 100 percent, enough requests that all failed raise the condition. */
  lemma FailingWindowAlerts(s: Settings, log: Log)
    requires log.Then? && s.thresholdPercent <= 100.0
    requires var recent := Deque(Since(log, log.latest.at - s.windowSeconds));
             |recent| >= 1 && |recent| >= s.minimumRequests && forall e :: e in recent ==> e.isError
    ensures Elevated(s, log)
  {
    var recent := Deque(Since(log, log.latest.at - s.windowSeconds));
    AllAreErrors(recent);
    DequeCounts(Since(log, log.latest.at - s.windowSeconds));
    AllIsHigh(s, |recent|);
  }

  lemma AllIsHigh(s: Settings, n: nat)
    requires s.thresholdPercent <= 100.0 && n >= 1 && n >= s.minimumRequests
    ensures RateIsHigh(s, n, n)
  {
    var b := n as real;
    assert (100 * n) as real == 100.0 * b;
    Scaled(100.0, s.thresholdPercent, b);
  }

  lemma {:induction false} AllAreErrors(events: seq<Event>)
    requires forall e :: e in events ==> e.isError
    ensures ErrorCount(events) == |events|
  {
    if events != [] {
      AllAreErrors(events[..|events| - 1]);
    }
  }

  /** The deque is the suffix of the history inside the window, the latch is the
      condition, and as many alerts went out as the condition had rising edges. */
  ghost predicate Mirrors(s: Settings, log: Log, events: seq<Event>, active: bool, alerts: nat) {
    && (if log.Start? then events == []
        else InOrder(log, log.latest.at) && events == Deque(Since(log, log.latest.at - s.windowSeconds)))
    && active == Elevated(s, log)
    && alerts == RisingEdges(s, log)
  }

  class ErrorRateMonitor {
    const settings: Settings
    var events: seq<Event>
    var alertActive: bool
    var alerts: nat          // alerts emitted so far
    ghost var log: Log       // every outcome ever recorded

    ghost predicate Valid()
      reads this
    {
      Mirrors(settings, log, events, alertActive, alerts)
    }

    constructor (s: Settings)
      ensures Valid() && settings == s && log == Start
    {
      settings := s;
      events, alertActive, alerts := [], false, 0;
      log := Start;
    }

    /** `record_http_outcome`. */
    method Record(statusCode: int, now: int) returns (alerted: bool)
      requires Valid() && (log.Then? ==> log.latest.at <= now)
      modifies this
      ensures Valid() && log == Then(old(log), Event(now, statusCode >= 500))
      ensures alerted <==> Elevated(settings, log) && !Elevated(settings, old(log))
      ensures alerts == old(alerts) + if alerted then 1 else 0
    {
      var cutoff := now - settings.windowSeconds;
      var event := Event(now, statusCode >= 500);
      var kept := AppendAndPrune(events, event, cutoff, log, if log.Then? then log.latest.at - settings.windowSeconds else cutoff);
      ghost var extended := Then(log, event);
      DequeCounts(Since(extended, cutoff));
      var requestCount, errorCount := |kept|, ErrorCount(kept);
      var high := RateIsHigh(settings, requestCount, errorCount);
      assert high == Elevated(settings, extended);
      alerted := high && !alertActive;
      var emitted := if alerted then alerts + 1 else alerts;
      assert Mirrors(settings, extended, kept, high, emitted);
      events, alertActive, alerts := kept, high, emitted;
      log := extended;
    }
  }

  /** Appends the event and pops what left the window, on a deque pruned earlier at `cut`. */
  method AppendAndPrune(events: seq<Event>, event: Event, cutoff: int, ghost log: Log, ghost cut: int)
    returns (kept: seq<Event>)
    requires InOrder(log, event.at) && events == Deque(Since(log, cut)) && cut <= cutoff
    ensures kept == Deque(Since(Then(log, event), cutoff))
  {
    SinceInOrder(log, cut, event.at);
    SinceSince(log, cut, cutoff);
    kept := DropStale(events + [event], cutoff, Then(Since(log, cut), event), event.at);
  }

  /** The pruning loop of `record_http_outcome`. */
  method DropStale(events: seq<Event>, cutoff: int, ghost log: Log, ghost now: int) returns (kept: seq<Event>)
    requires InOrder(log, now) && events == Deque(log)
    ensures kept == Deque(Since(log, cutoff))
  {
    kept := events;
    ghost var k := log;
    while kept != [] && kept[0].at < cutoff
      invariant InOrder(k, now) && kept == Deque(k) && Since(k, cutoff) == Since(log, cutoff)
      decreases |kept|
    {
      k := StaleAtLeft(k, cutoff, now);
      kept := kept[1..];
    }
    if kept != [] {
      ghost var _ := StaleAtLeft(k, cutoff, now);
    }
  }
}
