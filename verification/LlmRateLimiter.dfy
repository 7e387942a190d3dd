/** The rolling two-level quota of the LLM capability: one deque of admission
    times for everybody, one per user.  The reference is a naive count over the
    complete admission history, which the limiter does not keep. */
module LlmRateLimiter {
  import opened SlidingWindow

  datatype Policy = Policy(userLimit: nat, globalLimit: nat, window: nat)
  datatype Admission = Admission(user: string, at: int)
  datatype Decision = Admitted | RefusedGlobal | RefusedUser

  type Log = History<Admission>

  function AllTimes(log: Log): Times {
    match log
    case Start => Start
    case Then(before, a) => Then(AllTimes(before), a.at)
  }

  function UserTimes(log: Log, user: string): Times {
    match log
    case Start => Start
    case Then(before, a) => if a.user == user then Then(UserTimes(before, user), a.at) else UserTimes(before, user)
  }

  /** The decision by counting the whole history. */
  function Decide(p: Policy, log: Log, user: string, now: int): Decision {
    if CountIn(AllTimes(log), now - p.window, now) >= p.globalLimit then RefusedGlobal
    else if CountIn(UserTimes(log, user), now - p.window, now) >= p.userLimit then RefusedUser
    else Admitted
  }

  function Extend(p: Policy, log: Log, user: string, now: int): Log {
    if Decide(p, log, user, now).Admitted? then Then(log, Admission(user, now)) else log
  }

  /** The admission history left by a history of requests. */
  function Run(p: Policy, requests: Log): Log {
    match requests
    case Start => Start
    case Then(before, r) => Extend(p, Run(p, before), r.user, r.at)
  }

  lemma {:induction false} UserTimesUpTo(log: Log, user: string, now: int)
    requires UpTo(AllTimes(log), now)
    ensures UpTo(UserTimes(log, user), now)
  {
    if log.Then? {
      UserTimesUpTo(log.before, user, if log.latest.user == user then log.latest.at else now);
    }
  }

  ghost predicate QuotasHold(p: Policy, log: Log) {
    && Bounded(AllTimes(log), p.globalLimit, p.window)
    && forall user :: Bounded(UserTimes(log, user), p.userLimit, p.window)
  }

  lemma ExtendKeepsQuotas(p: Policy, log: Log, user: string, now: int)
    requires QuotasHold(p, log) && UpTo(AllTimes(log), now)
    ensures QuotasHold(p, Extend(p, log, user, now)) && UpTo(AllTimes(Extend(p, log, user, now)), now)
  {
    if Decide(p, log, user, now).Admitted? {
      AdmitKeepsBounded(AllTimes(log), now, p.globalLimit, p.window);
      UserTimesUpTo(log, user, now);
      AdmitKeepsBounded(UserTimes(log, user), now, p.userLimit, p.window);
      forall u ensures Bounded(UserTimes(Then(log, Admission(user, now)), u), p.userLimit, p.window) {
        assert Bounded(UserTimes(log, u), p.userLimit, p.window);
      }
    }
  }

  /** Over any run on a nondecreasing clock, no window (s, s + W] exceeds either quota. */
  lemma {:induction false} RunKeepsQuotas(p: Policy, requests: Log, now: int)
    requires UpTo(AllTimes(requests), now)
    ensures QuotasHold(p, Run(p, requests)) && UpTo(AllTimes(Run(p, requests)), now)
  {
    match requests
    case Start =>
      forall user ensures UserTimes(Run(p, requests), user) == Start {}
    case Then(before, r) =>
      RunKeepsQuotas(p, before, r.at);
      ExtendKeepsQuotas(p, Run(p, before), r.user, r.at);
  }

  /** After any run, a refusal names a quota that is filled exactly to its limit,
      the global one taking precedence, and an admission means that both have room. */
  lemma RefusalMeansFull(p: Policy, requests: Log, user: string, now: int)
    requires UpTo(AllTimes(requests), now)
    ensures var log := Run(p, requests);
            var everyone := CountIn(AllTimes(log), now - p.window, now);
            var mine := CountIn(UserTimes(log, user), now - p.window, now);
            && (Decide(p, log, user, now) == RefusedGlobal <==> everyone == p.globalLimit)
            && (Decide(p, log, user, now) == RefusedUser <==> everyone < p.globalLimit && mine == p.userLimit)
            && (Decide(p, log, user, now) == Admitted <==> everyone < p.globalLimit && mine < p.userLimit)
  {
    RunKeepsQuotas(p, requests, now);
    var log := Run(p, requests);
    assert CountIn(AllTimes(log), now - p.window, now) <= p.globalLimit;
    assert Bounded(UserTimes(log, user), p.userLimit, p.window);
    assert CountIn(UserTimes(log, user), now - p.window, now) <= p.userLimit;
  }

  /** `_prune`: pops what has expired; what is left counts the window. */
  method Prune(hits: seq<int>, cutoff: int, ghost h: Times, ghost cut: int, ghost now: int)
    returns (kept: seq<int>)
    requires UpTo(h, now) && hits == Deque(After(h, cut)) && cut <= cutoff
    ensures kept == Deque(After(h, cutoff)) && |kept| == CountIn(h, cutoff, now)
  {
    AfterUpTo(h, cut, now);
    kept := PopExpired(hits, cutoff, After(h, cut), now);
    AfterAfter(h, cut, cutoff);
    AfterLength(h, cutoff, now);
  }

  /** What one more request does to every deque, seen through a cutoff in the past. */
  lemma ExtendedDeques(p: Policy, log: Log, user: string, now: int, cutoff: int)
    requires cutoff < now
    ensures
      var extended := Extend(p, log, user, now);
      var more := if Decide(p, log, user, now).Admitted? then [now] else [];
      && Deque(After(AllTimes(extended), cutoff)) == Deque(After(AllTimes(log), cutoff)) + more
      && Deque(After(UserTimes(extended, user), cutoff)) == Deque(After(UserTimes(log, user), cutoff)) + more
    ensures UpTo(AllTimes(log), now) ==> UpTo(AllTimes(Extend(p, log, user, now)), now)
    ensures forall u :: u != user ==> UserTimes(Extend(p, log, user, now), u) == UserTimes(log, u)
  {
  }

  /** A user's deque is the part of that user's history later than the cutoff of its last
      prune, which lies before the horizon. */
  ghost predicate DequeTracks(log: Log, horizon: int, hits: map<string, seq<int>>, cuts: map<string, int>, user: string) {
    if user in hits then
      user in cuts && cuts[user] <= horizon && hits[user] == Deque(After(UserTimes(log, user), cuts[user]))
    else
      user !in cuts && UserTimes(log, user) == Start
  }

  ghost predicate AllTracked(log: Log, horizon: int, hits: map<string, seq<int>>, cuts: map<string, int>) {
    forall user :: DequeTracks(log, horizon, hits, cuts, user)
  }

  /** Storing the requester's deque keeps every deque in step with the extended history. */
  lemma StoreKeepsTracked(p: Policy, log: Log, horizon: int, hits: map<string, seq<int>>, cuts: map<string, int>,
                          user: string, now: int, cut: int, mine: seq<int>)
    requires AllTracked(log, horizon, hits, cuts) && horizon <= cut
    requires mine == Deque(After(UserTimes(Extend(p, log, user, now), user), cut))
    ensures AllTracked(Extend(p, log, user, now), cut, hits[user := mine], cuts[user := cut])
  {
    var log' := Extend(p, log, user, now);
    var hits', cuts' := hits[user := mine], cuts[user := cut];
    forall u ensures DequeTracks(log', cut, hits', cuts', u) {
      assert DequeTracks(log, horizon, hits, cuts, u);
    }
  }

  /** What the limiter does not keep: every admission ever made, the latest reading of the
      injected clock, and the cutoffs of the last prunes of the deques. */
  datatype Past = Past(log: Log, clock: int, globalCut: int, userCuts: map<string, int>)

  /** The deques mirror the past. */
  ghost predicate Mirrors(past: Past, window: nat, globalHits: seq<int>, userHits: map<string, seq<int>>) {
    && UpTo(AllTimes(past.log), past.clock)
    && past.globalCut <= past.clock - window
    && globalHits == Deque(After(AllTimes(past.log), past.globalCut))
    && AllTracked(past.log, past.clock - window, userHits, past.userCuts)
  }

  class LlmRateLimiter {
    const policy: Policy
    var globalHits: seq<int>
    var userHits: map<string, seq<int>>
    ghost var past: Past

    ghost predicate Valid()
      reads this
    {
      policy.window > 0 && Mirrors(past, policy.window, globalHits, userHits)
    }

    constructor (p: Policy, now: int)
      requires p.window > 0
      ensures Valid() && policy == p && past.log == Start && past.clock == now
    {
      policy := p;
      globalHits, userHits := [], map[];
      past := Past(Start, now, now - p.window, map[]);
    }

    /** Decides as the naive count over the full history does, and records exactly the admissions. */
    method Acquire(userKey: string, now: int) returns (decision: Decision)
      requires Valid() && past.clock <= now
      modifies this
      ensures Valid() && past.clock == now
      ensures decision == Decide(policy, old(past.log), userKey, now)
      ensures past.log == Extend(policy, old(past.log), userKey, now)
    {
      var cutoff := now - policy.window;
      ghost var log := past.log;
      UserTimesUpTo(log, userKey, now);
      assert DequeTracks(log, past.clock - policy.window, userHits, past.userCuts, userKey);
      var everyone := Prune(globalHits, cutoff, AllTimes(log), past.globalCut, now);
      var hits := Prune(if userKey in userHits then userHits[userKey] else [], cutoff, UserTimes(log, userKey),
                        if userKey in past.userCuts then past.userCuts[userKey] else cutoff, now);
      decision := if |everyone| >= policy.globalLimit then RefusedGlobal
                  else if |hits| >= policy.userLimit then RefusedUser
                  else Admitted;
      ExtendedDeques(policy, log, userKey, now, cutoff);
      if decision.Admitted? {
        everyone, hits := everyone + [now], hits + [now];
      }
      StoreKeepsTracked(policy, log, past.clock - policy.window, userHits, past.userCuts, userKey, now, cutoff, hits);
      globalHits, userHits := everyone, userHits[userKey := hits];
      past := Past(Extend(policy, log, userKey, now), now, cutoff, past.userCuts[userKey := cutoff]);
    }
  }
}
