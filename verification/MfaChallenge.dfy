/** Verification of e-mailed sign-in codes.  A verification first looks at the token
    without a lock and then, holding the lock of the challenge row, looks again and
    decides; any number of verifications overlap. */
module MfaChallenge {
  import opened Wrappers
  import opened SlidingWindow

  datatype Token = Token(id: nat, user: int, expiresAt: int)
  datatype Challenge = Challenge(user: int, jti: nat, code: int, question: int, failures: nat, expiresAt: int)
  datatype Guess = Guess(code: int, answer: int)

  /** `enabled` are the existing users with MFA switched on, `answers` their hashed
      security answers, and `issued` the challenge tokens that carry our signature. */
  datatype Db = Db(
    challenges: map<nat, Challenge>,
    blacklist: set<nat>,
    answers: map<(int, int), int>,
    enabled: set<int>,
    issued: map<nat, Token>,
    nextToken: nat,
    maxAttempts: nat)

  datatype Verdict = SignedIn | Invalid | TooManyAttempts | ServerError

  /** A verification that passed the unlocked check, with the clock reading taken then. */
  datatype Attempt = Attempt(t: Token, guess: Guess, now: int)

  // ---------------------------------------------------------------- the two halves of a verification

  predicate PassesUnlocked(db: Db, t: Token, now: int) {
    t.id in db.issued && db.issued[t.id] == t && now < t.expiresAt && t.id !in db.blacklist
  }

  /** The row belongs to the token and is still good, so that the code is compared at all. */
  predicate Comparable(db: Db, a: Attempt) {
    a.t.id in db.challenges && a.t.id !in db.blacklist &&
    var c := db.challenges[a.t.id];
    c.user == a.t.user && c.jti == a.t.id && a.now < c.expiresAt
  }

  predicate CodeMatches(db: Db, a: Attempt)
    requires a.t.id in db.challenges
  {
    db.challenges[a.t.id].code == a.guess.code
  }

  predicate AnswerMatches(db: Db, a: Attempt)
    requires a.t.id in db.challenges
  {
    var key := (a.t.user, db.challenges[a.t.id].question);
    key in db.answers && db.answers[key] == a.guess.answer
  }

  predicate WrongGuess(db: Db, a: Attempt) {
    Comparable(db, a) && (!CodeMatches(db, a) || !AnswerMatches(db, a))
  }

  /** One more failure; at the limit the token is blacklisted, which a unique index
      refuses, with everything rolled back, if it already was. */
  function Fail(db: Db, id: nat): (Db, Verdict)
    requires id in db.challenges
  {
    var c := db.challenges[id];
    var counted := db.(challenges := db.challenges[id := c.(failures := c.failures + 1)]);
    if c.failures + 1 < db.maxAttempts then (counted, Invalid)
    else if id in db.blacklist then (db, ServerError)
    else (counted.(blacklist := db.blacklist + {id}), TooManyAttempts)
  }

  /** `verify_mfa_challenge` from the row lock to the commit. */
  function Decide(db: Db, a: Attempt): (Db, Verdict) {
    var id := a.t.id;
    if id !in db.challenges then (db, Invalid)
    else if !Comparable(db, a) || !CodeMatches(db, a) then Fail(db, id)
    else if !AnswerMatches(db, a) then Fail(db, id)
    else if a.t.user !in db.enabled then (db, Invalid)
    else (db.(blacklist := db.blacklist + {id}), SignedIn)
  }

  // ---------------------------------------------------------------- runs

  datatype Step =
    | Issue(user: int, code: int, question: int, expiresAt: int)
    | Check(attempt: nat, t: Token, guess: Guess, at: int)
    | Lock(attempt: nat)
    | ResetMfa(user: int)
    | Configure(user: int, on: bool, answers: map<(int, int), int>)

  /** A decided verification: its token, the verdict, and whether a wrong code or answer was compared. */
  datatype Entry = Entry(token: nat, verdict: Verdict, wrongGuess: bool)

  datatype State = State(db: Db, pending: map<nat, Attempt>, log: History<Entry>)

  function Next(s: State, step: Step): State {
    match step
    case Issue(user, code, question, expiresAt) =>
      var id := s.db.nextToken;
      s.(db := s.db.(challenges := s.db.challenges[id := Challenge(user, id, code, question, 0, expiresAt)],
                     issued := s.db.issued[id := Token(id, user, expiresAt)],
                     nextToken := id + 1))
    case Check(attempt, t, guess, now) =>
      if attempt in s.pending || !PassesUnlocked(s.db, t, now) then s
      else s.(pending := s.pending[attempt := Attempt(t, guess, now)])
    case Lock(attempt) =>
      if attempt !in s.pending then s
      else
        var a := s.pending[attempt];
        var (db, verdict) := Decide(s.db, a);
        State(db, s.pending - {attempt}, Then(s.log, Entry(a.t.id, verdict, WrongGuess(s.db, a))))
    case ResetMfa(user) =>
      s.(db := s.db.(challenges := map k | k in s.db.challenges && s.db.challenges[k].user != user :: s.db.challenges[k],
                     enabled := s.db.enabled - {user}))
    case Configure(user, on, answers) =>
      s.(db := s.db.(answers := answers, enabled := if on then s.db.enabled + {user} else s.db.enabled - {user}))
  }

  function Initial(maxAttempts: nat): State {
    State(Db(map[], {}, map[], {}, map[], 0, maxAttempts), map[], Start)
  }

  function Run(maxAttempts: nat, steps: History<Step>): State {
    match steps
    case Start => Initial(maxAttempts)
    case Then(before, step) => Next(Run(maxAttempts, before), step)
  }

  /** How often a token was closed, by a sign-in or by reaching the limit. */
  function SignIns(log: History<Entry>, token: nat): nat {
    if log.Start? then 0
    else SignIns(log.before, token) + if log.latest.token == token && log.latest.verdict.SignedIn? then 1 else 0
  }

  function Lockouts(log: History<Entry>, token: nat): nat {
    if log.Start? then 0
    else Lockouts(log.before, token) + if log.latest.token == token && log.latest.verdict.TooManyAttempts? then 1 else 0
  }

  function WrongGuesses(log: History<Entry>, token: nat): nat {
    if log.Start? then 0
    else WrongGuesses(log.before, token) + if log.latest.token == token && log.latest.wrongGuess then 1 else 0
  }

  /** What the tables know about the log of one token. */
  ghost predicate TokenOk(s: State, x: nat) {
    && SignIns(s.log, x) + Lockouts(s.log, x) == (if x in s.db.blacklist then 1 else 0)
    && WrongGuesses(s.log, x) <= s.db.maxAttempts
    && (x in s.db.challenges ==>
          var c := s.db.challenges[x];
          && WrongGuesses(s.log, x) <= c.failures <= s.db.maxAttempts
          && (Lockouts(s.log, x) == 1 <==> c.failures == s.db.maxAttempts)
          && x in s.db.issued && s.db.issued[x] == Token(x, c.user, c.expiresAt) && c.jti == x)
    && (x >= s.db.nextToken ==>
          x !in s.db.challenges && x !in s.db.blacklist && x !in s.db.issued && WrongGuesses(s.log, x) == 0)
  }

  ghost predicate AttemptOk(s: State, i: nat) {
    i in s.pending ==>
      var t := s.pending[i].t;
      t.id < s.db.nextToken && t.id in s.db.issued && s.db.issued[t.id] == t && s.pending[i].now < t.expiresAt
  }

  ghost predicate Inv(s: State) {
    s.db.maxAttempts >= 1 && (forall x :: TokenOk(s, x)) && (forall i :: AttemptOk(s, i))
  }

  lemma LockKeepsToken(s: State, attempt: nat, x: nat)
    requires Inv(s)
    ensures TokenOk(Next(s, Lock(attempt)), x)
  {
    assert TokenOk(s, x);
    if attempt in s.pending {
      assert AttemptOk(s, attempt);
    }
  }

  lemma NextKeepsInv(s: State, step: Step)
    requires Inv(s)
    ensures Inv(Next(s, step))
  {
    var s' := Next(s, step);
    forall x ensures TokenOk(s', x) {
      if step.Lock? {
        LockKeepsToken(s, step.attempt, x);
      } else {
        assert TokenOk(s, x);
      }
    }
    forall i ensures AttemptOk(s', i) {
      assert AttemptOk(s, i);
      if step.Check? && i == step.attempt {
        assert TokenOk(s, step.t.id);
      }
    }
  }

  lemma {:induction false} RunKeepsInv(maxAttempts: nat, steps: History<Step>)
    requires maxAttempts >= 1
    ensures Inv(Run(maxAttempts, steps)) && Run(maxAttempts, steps).db.maxAttempts == maxAttempts
  {
    if steps.Then? {
      RunKeepsInv(maxAttempts, steps.before);
      NextKeepsInv(Run(maxAttempts, steps.before), steps.latest);
    }
  }

  /** However verifications of one challenge overlap, it is closed at most once: by one
      sign-in or by one lockout, never both.  At most `maxAttempts` wrong guesses are compared. */
  lemma ClosedAtMostOnce(maxAttempts: nat, steps: History<Step>, token: nat)
    requires maxAttempts >= 1
    ensures var log := Run(maxAttempts, steps).log;
            && SignIns(log, token) + Lockouts(log, token) <= 1
            && WrongGuesses(log, token) <= maxAttempts
  {
    RunKeepsInv(maxAttempts, steps);
    assert TokenOk(Run(maxAttempts, steps), token);
  }

  /** After any run, a verification that passed its unlocked check signs in exactly when
      the challenge still exists and was not closed in the meantime, both secrets are
      right, and the user still has MFA on; then it closes the challenge for good. */
  lemma SignsInExactlyWhenOpen(maxAttempts: nat, steps: History<Step>, attempt: nat)
    requires maxAttempts >= 1 && attempt in Run(maxAttempts, steps).pending
    ensures var s := Run(maxAttempts, steps);
            var a := s.pending[attempt];
            var s' := Next(s, Lock(attempt));
            && (s'.log.latest.verdict.SignedIn? <==>
                  && a.t.id in s.db.challenges && CodeMatches(s.db, a) && AnswerMatches(s.db, a)
                  && a.t.user in s.db.enabled
                  && SignIns(s.log, a.t.id) == 0 && Lockouts(s.log, a.t.id) == 0)
            && (s'.log.latest.verdict.SignedIn? ==> forall now :: !PassesUnlocked(s'.db, a.t, now))
  {
    RunKeepsInv(maxAttempts, steps);
    var s := Run(maxAttempts, steps);
    assert AttemptOk(s, attempt);
    assert TokenOk(s, s.pending[attempt].t.id);
  }

  /** After any run, the unlocked check passes a genuine, unexpired token if and only if its challenge
      was closed neither by a sign-in nor by a lockout. */
  lemma CheckMeansOpen(maxAttempts: nat, steps: History<Step>, t: Token, now: int)
    requires maxAttempts >= 1
    requires t.id in Run(maxAttempts, steps).db.issued && Run(maxAttempts, steps).db.issued[t.id] == t && now < t.expiresAt
    ensures var s := Run(maxAttempts, steps);
            PassesUnlocked(s.db, t, now) <==> SignIns(s.log, t.id) == 0 && Lockouts(s.log, t.id) == 0
  {
    RunKeepsInv(maxAttempts, steps);
    assert TokenOk(Run(maxAttempts, steps), t.id);
  }

  /** The budget is spent one wrong guess at a time: the guess that makes the count reach
      the limit, and no earlier one, locks the challenge. */
  lemma LockoutAtTheLimit(maxAttempts: nat, steps: History<Step>, attempt: nat)
    requires maxAttempts >= 1 && attempt in Run(maxAttempts, steps).pending
    requires WrongGuess(Run(maxAttempts, steps).db, Run(maxAttempts, steps).pending[attempt])
    ensures var s := Run(maxAttempts, steps);
            var id := s.pending[attempt].t.id;
            var s' := Next(s, Lock(attempt));
            && s'.db.challenges[id].failures == s.db.challenges[id].failures + 1
            && s'.log.latest.verdict == (if s'.db.challenges[id].failures == maxAttempts then TooManyAttempts else Invalid)
            && (id in s'.db.blacklist <==> s'.db.challenges[id].failures == maxAttempts)
  {
    RunKeepsInv(maxAttempts, steps);
    var s := Run(maxAttempts, steps);
    assert TokenOk(s, s.pending[attempt].t.id);
  }

  // ---------------------------------------------------------------- what opens a challenge

  /** What a challenge was issued with. */
  datatype Secret = Secret(user: int, code: int, question: int, expiresAt: int)

  function Issued(steps: History<Step>): nat {
    if steps.Start? then 0 else Issued(steps.before) + if steps.latest.Issue? then 1 else 0
  }

  /** The secret of the k-th challenge, read off the run. */
  function SecretOf(steps: History<Step>, k: nat): Option<Secret> {
    match steps
    case Start => None
    case Then(before, step) =>
      if step.Issue? && Issued(before) == k then Some(Secret(step.user, step.code, step.question, step.expiresAt))
      else SecretOf(before, k)
  }

  /** The user's MFA was reset after the challenge was issued, which deletes it. */
  predicate ResetSince(steps: History<Step>, k: nat) {
    steps.Then? &&
    (ResetSince(steps.before, k)
     || (steps.latest.ResetMfa? && SecretOf(steps.before, k).Some? && SecretOf(steps.before, k).value.user == steps.latest.user))
  }

  /** The answers that were configured last. */
  function AnswersIn(steps: History<Step>): map<(int, int), int> {
    if steps.Start? then map[] else if steps.latest.Configure? then steps.latest.answers else AnswersIn(steps.before)
  }

  /** The user's MFA is on: the last change to it switched it on. */
  predicate OnIn(steps: History<Step>, user: int) {
    match steps
    case Start => false
    case Then(before, step) =>
      if step.Configure? && step.user == user then step.on
      else if step.ResetMfa? && step.user == user then false
      else OnIn(before, user)
  }

  ghost predicate TablesOfRun(maxAttempts: nat, steps: History<Step>, k: nat) {
    var db, secret := Run(maxAttempts, steps).db, SecretOf(steps, k);
    && db.nextToken == Issued(steps) && db.answers == AnswersIn(steps)
    && (secret.Some? <==> k < Issued(steps)) && (secret.Some? <==> k in db.issued)
    && (secret.Some? ==> db.issued[k] == Token(k, secret.value.user, secret.value.expiresAt))
    && (k in db.challenges <==> secret.Some? && !ResetSince(steps, k))
    && (k in db.challenges ==>
          var c := db.challenges[k];
          c.user == secret.value.user && c.jti == k && c.code == secret.value.code
          && c.question == secret.value.question && c.expiresAt == secret.value.expiresAt)
  }

  lemma {:induction false} RunFillsTables(maxAttempts: nat, steps: History<Step>, k: nat)
    ensures TablesOfRun(maxAttempts, steps, k)
  {
    if steps.Then? {
      RunFillsTables(maxAttempts, steps.before, k);
      NeverResetBefore(steps.before, k);
    }
  }

  lemma {:induction false} NeverResetBefore(steps: History<Step>, k: nat)
    ensures ResetSince(steps, k) ==> SecretOf(steps, k).Some?
  {
    if steps.Then? {
      NeverResetBefore(steps.before, k);
    }
  }

  lemma {:induction false} RunSwitches(maxAttempts: nat, steps: History<Step>, user: int)
    ensures user in Run(maxAttempts, steps).db.enabled <==> OnIn(steps, user)
  {
    if steps.Then? {
      RunSwitches(maxAttempts, steps.before, user);
    }
  }

  /** In terms of the run alone: a verification under the lock signs in if and only if it brings the code
      that the challenge was issued with and the answer that was configured last for its question, for
      a user whose MFA is on and was not reset since, before any sign-in or lockout of the challenge.
      It passed its check with the token that was issued, before its expiry. */
  lemma SignInIsExact(maxAttempts: nat, steps: History<Step>, attempt: nat)
    requires maxAttempts >= 1 && attempt in Run(maxAttempts, steps).pending
    ensures
      var s := Run(maxAttempts, steps);
      var a, s' := s.pending[attempt], Next(s, Lock(attempt));
      var secret := SecretOf(steps, a.t.id);
      && secret.Some? && a.t == Token(a.t.id, secret.value.user, secret.value.expiresAt) && a.now < secret.value.expiresAt
      && s'.pending == s.pending - {attempt} && s'.log.Then? && s'.log.before == s.log && s'.log.latest.token == a.t.id
      && var open := !ResetSince(steps, a.t.id) && SignIns(s.log, a.t.id) == 0 && Lockouts(s.log, a.t.id) == 0;
         var key := (a.t.user, secret.value.question);
         var right := a.guess.code == secret.value.code && key in AnswersIn(steps) && AnswersIn(steps)[key] == a.guess.answer;
         && (s'.log.latest.verdict.SignedIn? <==> open && right && OnIn(steps, a.t.user))
         && (s'.log.latest.wrongGuess <==> open && !right)
  {
    var s := Run(maxAttempts, steps);
    var id := s.pending[attempt].t.id;
    RunKeepsInv(maxAttempts, steps);
    assert AttemptOk(s, attempt) && TokenOk(s, id);
    RunFillsTables(maxAttempts, steps, id);
    RunSwitches(maxAttempts, steps, s.pending[attempt].t.user);
  }

  /** In terms of the run alone: a verification passes the check before the lock if and only if its token
      is the one issued, has not expired, and its challenge was not closed. */
  lemma CheckIsExact(maxAttempts: nat, steps: History<Step>, attempt: nat, t: Token, guess: Guess, now: int)
    requires maxAttempts >= 1 && attempt !in Run(maxAttempts, steps).pending
    ensures
      var s := Run(maxAttempts, steps);
      var s', secret := Next(s, Check(attempt, t, guess, now)), SecretOf(steps, t.id);
      && s'.db == s.db && s'.log == s.log
      && (attempt in s'.pending <==>
            && secret.Some? && t == Token(t.id, secret.value.user, secret.value.expiresAt) && now < secret.value.expiresAt
            && SignIns(s.log, t.id) == 0 && Lockouts(s.log, t.id) == 0)
      && (attempt in s'.pending ==> s'.pending == s.pending[attempt := Attempt(t, guess, now)])
  {
    RunKeepsInv(maxAttempts, steps);
    assert TokenOk(Run(maxAttempts, steps), t.id);
    RunFillsTables(maxAttempts, steps, t.id);
  }

  // ---------------------------------------------------------------- the tables, updated in place

  class MfaVerifier {
    var challenges: map<nat, Challenge>
    var blacklist: set<nat>
    var answers: map<(int, int), int>
    var enabled: set<int>
    var issued: map<nat, Token>
    var nextToken: nat
    const maxAttempts: nat

    constructor (db: Db)
      ensures Tables() == db
    {
      challenges, blacklist, answers, enabled, issued, nextToken, maxAttempts :=
        db.challenges, db.blacklist, db.answers, db.enabled, db.issued, db.nextToken, db.maxAttempts;
    }

    function Tables(): Db
      reads this
    {
      Db(challenges, blacklist, answers, enabled, issued, nextToken, maxAttempts)
    }

    method CheckUnlocked(t: Token, guess: Guess, now: int) returns (attempt: Option<Attempt>)
      ensures attempt == if PassesUnlocked(Tables(), t, now) then Some(Attempt(t, guess, now)) else None
    {
      attempt := None;
      if t.id in issued && issued[t.id] == t && t.expiresAt > now {
        if t.id !in blacklist {
          attempt := Some(Attempt(t, guess, now));
        }
      }
    }

    /** The increment, the test of the limit and the lockout, which both mismatch branches run. */
    method RecordFailure(id: nat) returns (verdict: Verdict)
      requires id in challenges
      modifies this
      ensures (Tables(), verdict) == Fail(old(Tables()), id)
    {
      var before := challenges[id];
      var failures := before.failures + 1;
      challenges := challenges[id := before.(failures := failures)];
      if failures >= maxAttempts {
        if id in blacklist {
          // the insertion violates the unique index and the transaction is rolled back
          challenges := challenges[id := before];
          assert challenges == old(challenges);
          return ServerError;
        }
        blacklist := blacklist + {id};
        return TooManyAttempts;
      }
      verdict := Invalid;
    }

    method DecideLocked(a: Attempt) returns (verdict: Verdict)
      modifies this
      ensures (Tables(), verdict) == Decide(old(Tables()), a)
    {
      var id := a.t.id;
      if id !in challenges {
        return Invalid;
      }
      var c := challenges[id];
      if id in blacklist || c.user != a.t.user || c.jti != id || c.expiresAt <= a.now || c.code != a.guess.code {
        verdict := RecordFailure(id);
        return;
      }
      if (a.t.user, c.question) !in answers || answers[(a.t.user, c.question)] != a.guess.answer {
        verdict := RecordFailure(id);
        return;
      }
      if a.t.user !in enabled {
        return Invalid;
      }
      blacklist := blacklist + {id};
      verdict := SignedIn;
    }
  }
}
