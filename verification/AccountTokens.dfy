/** One-time account tokens: e-mail verification, password reset, e-mail change and
    MFA reset.  A token stands for its hash; rows are numbered in creation order. */
module AccountTokens {
  import opened Wrappers
  import opened SlidingWindow

  datatype Purpose = EmailVerification | PasswordReset | EmailChange | MfaReset

  datatype Row = Row(user: int, purpose: Purpose, expiresAt: int, lastSentAt: int, newEmail: int,
                     used: Option<int>, revoked: Option<int>)

  datatype User = User(email: int, pendingEmail: Option<int>, verified: bool, mfa: bool)

  datatype Db = Db(rows: map<nat, Row>, next: nat, users: map<int, User>, cooldown: nat)

  /** Requests of one user for one purpose must be apart, except for MFA resets. */
  predicate Cooled(p: Purpose) { !p.MfaReset? }

  // ---------------------------------------------------------------- issuing

  predicate IsLive(r: Row) { r.used.None? && r.revoked.None? }

  predicate For(r: Row, user: int, purpose: Purpose) { r.user == user && r.purpose == purpose }

  /** `revoke_account_tokens_for_user`. */
  function RevokedRows(rows: map<nat, Row>, user: int, purpose: Purpose, now: int): map<nat, Row> {
    map k | k in rows :: if For(rows[k], user, purpose) && IsLive(rows[k]) then rows[k].(revoked := Some(now)) else rows[k]
  }

  /** `_issue_account_token` with `mark_sent`. */
  function Issue(db: Db, user: int, purpose: Purpose, now: int, expiresAt: int, newEmail: int): Db {
    db.(rows := RevokedRows(db.rows, user, purpose, now)[db.next := Row(user, purpose, expiresAt, now, newEmail, None, None)],
        next := db.next + 1)
  }

  /** `get_latest_account_token_for_user` among the first `n` rows. */
  function Latest(rows: map<nat, Row>, n: nat, user: int, purpose: Purpose): Option<nat> {
    if n == 0 then None
    else if n - 1 in rows && For(rows[n - 1], user, purpose) then Some(n - 1)
    else Latest(rows, n - 1, user, purpose)
  }

  predicate CoolingDown(db: Db, user: int, purpose: Purpose, now: int) {
    var latest := Latest(db.rows, db.next, user, purpose);
    latest.Some? && latest.value in db.rows && db.rows[latest.value].lastSentAt + db.cooldown > now
  }

  predicate EmailTaken(db: Db, email: int) {
    exists u :: u in db.users && db.users[u].email == email
  }

  /** The unique index on pending addresses has it for another user. */
  predicate PendingTaken(db: Db, user: int, email: int) {
    exists u :: u in db.users && u != user && db.users[u].pendingEmail == Some(email)
  }

  datatype Outcome = Rejected | TooSoon | Accepted(db: Db, issued: bool)

  /** The clock is read for the check and again for the row; a mail that had to be
      delivered and was not rolls everything back. */
  datatype Moment = Moment(check: int, issue: int, expiresAt: int, delivered: bool)

  function Register(db: Db, user: int, email: int, m: Moment): Outcome {
    if user in db.users || EmailTaken(db, email) || !m.delivered then Rejected
    else
      var joined := db.(users := db.users[user := User(email, None, false, false)]);
      Accepted(Issue(joined, user, EmailVerification, m.issue, m.expiresAt, email), true)
  }

  function ResendVerification(db: Db, user: int, m: Moment): Outcome {
    if user !in db.users then Rejected
    else if db.users[user].verified then Accepted(db, false)
    else if CoolingDown(db, user, EmailVerification, m.check) then TooSoon
    else if !m.delivered then Rejected
    else Accepted(Issue(db, user, EmailVerification, m.issue, m.expiresAt, db.users[user].email), true)
  }

  function RequestPasswordReset(db: Db, user: int, m: Moment): Outcome {
    if user !in db.users then Accepted(db, false)
    else if CoolingDown(db, user, PasswordReset, m.check) then TooSoon
    else Accepted(Issue(db, user, PasswordReset, m.issue, m.expiresAt, db.users[user].email), true)
  }

  function RequestEmailChange(db: Db, user: int, passwordOk: bool, newEmail: int, m: Moment): Outcome {
    if user !in db.users || !passwordOk || newEmail == db.users[user].email || EmailTaken(db, newEmail) then Rejected
    else if CoolingDown(db, user, EmailChange, m.check) then TooSoon
    else if PendingTaken(db, user, newEmail) || !m.delivered then Rejected
    else
      var staged := db.(users := db.users[user := db.users[user].(pendingEmail := Some(newEmail))]);
      Accepted(Issue(staged, user, EmailChange, m.issue, m.expiresAt, newEmail), true)
  }

  function RequestMfaReset(db: Db, user: int, m: Moment): Outcome {
    if user !in db.users || !db.users[user].mfa then Accepted(db, false)
    else Accepted(Issue(db, user, MfaReset, m.issue, m.expiresAt, db.users[user].email), true)
  }

  // ---------------------------------------------------------------- consuming

  /** A genuine, unspent and unexpired token of the purpose. */
  predicate Valid(db: Db, token: nat, purpose: Purpose, now: int) {
    token in db.rows && db.rows[token].purpose == purpose && IsLive(db.rows[token]) && now < db.rows[token].expiresAt
  }

  function Used(rows: map<nat, Row>, token: nat, now: int): map<nat, Row>
    requires token in rows
  {
    rows[token := rows[token].(used := Some(now))]
  }

  /** `mark_account_token_used`, then `revoke_account_tokens_for_user`. */
  function Spend(db: Db, token: nat, now: int): Db
    requires token in db.rows
  {
    var r := db.rows[token];
    db.(rows := RevokedRows(Used(db.rows, token, now), r.user, r.purpose, now))
  }

  /** The users after a token is accepted. */
  function Accounts(db: Db, token: nat, purpose: Purpose): map<int, User>
    requires token in db.rows && db.rows[token].user in db.users
  {
    var r := db.rows[token];
    var u := db.users[r.user];
    match purpose
    case EmailVerification => db.users[r.user := u.(verified := true)]
    case PasswordReset => db.users
    case EmailChange => db.users[r.user := u.(email := r.newEmail, pendingEmail := None, verified := true)]
    case MfaReset => db.users[r.user := u.(mfa := false)]
  }

  /** What an accepted token does.  An MFA reset revokes no other token. */
  function Effect(db: Db, token: nat, purpose: Purpose, now: int): Db
    requires token in db.rows && db.rows[token].user in db.users
  {
    var spent := if purpose.MfaReset? then db.(rows := Used(db.rows, token, now)) else Spend(db, token, now);
    spent.(users := Accounts(db, token, purpose))
  }

  function Consume(db: Db, token: nat, purpose: Purpose, now: int): Outcome {
    if !Valid(db, token, purpose, now) || db.rows[token].user !in db.users then Rejected
    else if purpose.EmailChange? && (db.users[db.rows[token].user].pendingEmail != Some(db.rows[token].newEmail)
                                     || EmailTaken(db, db.rows[token].newEmail)) then Rejected
    else Accepted(Effect(db, token, purpose, now), false)
  }

  // ---------------------------------------------------------------- runs

  datatype Request =
    | Registers(user: int, email: int, m: Moment)
    | Resends(user: int, m: Moment)
    | AsksPasswordReset(user: int, m: Moment)
    | AsksEmailChange(user: int, passwordOk: bool, newEmail: int, m: Moment)
    | AsksMfaReset(user: int, m: Moment)
    | EnablesMfa(user: int)
    | Presents(token: nat, purpose: Purpose, at: int)

  function Handle(db: Db, r: Request): Outcome {
    match r
    case Registers(user, email, m) => Register(db, user, email, m)
    case Resends(user, m) => ResendVerification(db, user, m)
    case AsksPasswordReset(user, m) => RequestPasswordReset(db, user, m)
    case AsksEmailChange(user, ok, newEmail, m) => RequestEmailChange(db, user, ok, newEmail, m)
    case AsksMfaReset(user, m) => RequestMfaReset(db, user, m)
    case EnablesMfa(user) =>
      if user in db.users then Accepted(db.(users := db.users[user := db.users[user].(mfa := true)]), false) else Rejected
    case Presents(token, purpose, now) => Consume(db, token, purpose, now)
  }

  function Settled(db: Db, o: Outcome): Db {
    if o.Accepted? then o.db else db
  }

  function Initial(cooldown: nat): Db {
    Db(map[], 0, map[], cooldown)
  }

  function Run(cooldown: nat, requests: History<Request>): Db {
    match requests
    case Start => Initial(cooldown)
    case Then(before, r) => Settled(Run(cooldown, before), Handle(Run(cooldown, before), r))
  }

  /** The clock does not run backwards within a request. */
  ghost predicate Timely(requests: History<Request>) {
    requests.Then? ==>
      && Timely(requests.before)
      && (requests.latest.Presents? || requests.latest.EnablesMfa? || requests.latest.m.check <= requests.latest.m.issue)
  }

  // ---------------------------------------------------------------- the invariant

  ghost predicate RowOk(db: Db, i: nat) {
    i in db.rows ==> i < db.next && db.rows[i].user in db.users
  }

  /** Of two tokens of one user and purpose only the newer can be live, and their
      mails are at least the cooldown apart. */
  ghost predicate PairOk(db: Db, i: nat, j: nat) {
    i < j && i in db.rows && j in db.rows && For(db.rows[j], db.rows[i].user, db.rows[i].purpose) ==>
      && !IsLive(db.rows[i])
      && (Cooled(db.rows[i].purpose) ==> db.rows[i].lastSentAt + db.cooldown <= db.rows[j].lastSentAt)
  }

  ghost predicate Inv(db: Db) {
    (forall i :: RowOk(db, i)) && (forall i, j :: PairOk(db, i, j))
  }

  lemma {:induction false} LatestIsLast(rows: map<nat, Row>, n: nat, user: int, purpose: Purpose)
    ensures var l := Latest(rows, n, user, purpose);
            && (l.Some? ==> l.value < n && l.value in rows && For(rows[l.value], user, purpose))
            && (forall i: nat :: i < n && i in rows && For(rows[i], user, purpose) ==> l.Some? && i <= l.value)
  {
    if n > 0 {
      LatestIsLast(rows, n - 1, user, purpose);
    }
  }

  lemma IssueKeepsInv(db: Db, user: int, purpose: Purpose, now: int, expiresAt: int, newEmail: int)
    requires Inv(db) && user in db.users
    requires Cooled(purpose) ==> !CoolingDown(db, user, purpose, now)
    ensures Inv(Issue(db, user, purpose, now, expiresAt, newEmail))
  {
    var db' := Issue(db, user, purpose, now, expiresAt, newEmail);
    assert RowOk(db, db.next);
    forall i ensures RowOk(db', i) { assert RowOk(db, i); }
    LatestIsLast(db.rows, db.next, user, purpose);
    forall i, j ensures PairOk(db', i, j) {
      assert PairOk(db, i, j) && RowOk(db, i) && RowOk(db, j);
      if i < j == db.next && i in db.rows && For(db.rows[i], user, purpose) {
        var l := Latest(db.rows, db.next, user, purpose).value;
        assert PairOk(db, i, l);
      }
    }
  }

  lemma SpendKeepsRows(db: Db, token: nat, now: int, all: bool)
    requires Inv(db) && token in db.rows
    ensures Inv(if all then Spend(db, token, now) else db.(rows := Used(db.rows, token, now)))
  {
    var db' := if all then Spend(db, token, now) else db.(rows := Used(db.rows, token, now));
    forall i ensures RowOk(db', i) { assert RowOk(db, i); }
    forall i, j ensures PairOk(db', i, j) { assert PairOk(db, i, j); }
  }

  lemma UsersKeepInv(db: Db, users: map<int, User>)
    requires Inv(db) && db.users.Keys <= users.Keys
    ensures Inv(db.(users := users))
  {
    forall i ensures RowOk(db.(users := users), i) { assert RowOk(db, i); }
    forall i, j ensures PairOk(db.(users := users), i, j) { assert PairOk(db, i, j); }
  }

  lemma StrangerHasNoToken(db: Db, user: int, purpose: Purpose, now: int)
    requires Inv(db) && user !in db.users
    ensures !CoolingDown(db, user, purpose, now)
  {
    LatestIsLast(db.rows, db.next, user, purpose);
    var l := Latest(db.rows, db.next, user, purpose);
    assert l.Some? ==> RowOk(db, l.value);
  }

  lemma AskKeepsInv(db: Db, r: Request)
    requires Inv(db) && !r.Presents?
    requires r.EnablesMfa? || r.m.check <= r.m.issue
    ensures Inv(Settled(db, Handle(db, r)))
  {
    var o := Handle(db, r);
    if o.Accepted? {
      match r
      case Registers(user, email, m) =>
        StrangerHasNoToken(db, user, EmailVerification, m.issue);
        var users := db.users[user := User(email, None, false, false)];
        UsersKeepInv(db, users);
        IssueKeepsInv(db.(users := users), user, EmailVerification, m.issue, m.expiresAt, email);
      case Resends(user, m) =>
        if o.issued { IssueKeepsInv(db, user, EmailVerification, m.issue, m.expiresAt, db.users[user].email); }
      case AsksPasswordReset(user, m) =>
        if o.issued { IssueKeepsInv(db, user, PasswordReset, m.issue, m.expiresAt, db.users[user].email); }
      case AsksEmailChange(user, _, newEmail, m) =>
        var users := db.users[user := db.users[user].(pendingEmail := Some(newEmail))];
        UsersKeepInv(db, users);
        IssueKeepsInv(db.(users := users), user, EmailChange, m.issue, m.expiresAt, newEmail);
      case AsksMfaReset(user, m) =>
        if o.issued { IssueKeepsInv(db, user, MfaReset, m.issue, m.expiresAt, db.users[user].email); }
      case EnablesMfa(user) =>
        UsersKeepInv(db, o.db.users);
    }
  }

  lemma PresentKeepsInv(db: Db, token: nat, purpose: Purpose, now: int)
    requires Inv(db)
    ensures Inv(Settled(db, Consume(db, token, purpose, now)))
  {
    var o := Consume(db, token, purpose, now);
    if o.Accepted? {
      SpendKeepsRows(db, token, now, !purpose.MfaReset?);
      var spent := if !purpose.MfaReset? then Spend(db, token, now) else db.(rows := Used(db.rows, token, now));
      UsersKeepInv(spent, o.db.users);
      assert o.db == spent.(users := o.db.users);
    }
  }

  lemma {:induction false} RunKeepsInv(cooldown: nat, requests: History<Request>)
    requires Timely(requests)
    ensures Inv(Run(cooldown, requests)) && Run(cooldown, requests).cooldown == cooldown
  {
    if requests.Then? {
      RunKeepsInv(cooldown, requests.before);
      var db, r := Run(cooldown, requests.before), requests.latest;
      if r.Presents? {
        PresentKeepsInv(db, r.token, r.purpose, r.at);
      } else {
        AskKeepsInv(db, r);
      }
    }
  }

  // ---------------------------------------------------------------- the properties

  /** At every reachable state a user has at most one live token of a purpose, the newest. */
  lemma OneLiveToken(cooldown: nat, requests: History<Request>, i: nat, j: nat)
    requires Timely(requests)
    requires var db := Run(cooldown, requests);
             && i in db.rows && j in db.rows && For(db.rows[j], db.rows[i].user, db.rows[i].purpose)
             && IsLive(db.rows[i]) && IsLive(db.rows[j])
    ensures i == j
    ensures var db := Run(cooldown, requests);
            Latest(db.rows, db.next, db.rows[i].user, db.rows[i].purpose) == Some(i)
  {
    RunKeepsInv(cooldown, requests);
    var db := Run(cooldown, requests);
    assert PairOk(db, i, j) && PairOk(db, j, i) && RowOk(db, i);
    LatestIsLast(db.rows, db.next, db.rows[i].user, db.rows[i].purpose);
    assert PairOk(db, i, Latest(db.rows, db.next, db.rows[i].user, db.rows[i].purpose).value);
  }

  /** Any two verification, password-reset or e-mail-change issues of one user are at least the cooldown apart. */
  lemma IssuesAreApart(cooldown: nat, requests: History<Request>, i: nat, j: nat)
    requires Timely(requests) && i < j
    requires var db := Run(cooldown, requests);
             i in db.rows && j in db.rows && For(db.rows[j], db.rows[i].user, db.rows[i].purpose)
    ensures var db := Run(cooldown, requests);
            Cooled(db.rows[i].purpose) ==> db.rows[i].lastSentAt + cooldown <= db.rows[j].lastSentAt
  {
    RunKeepsInv(cooldown, requests);
    assert PairOk(Run(cooldown, requests), i, j);
  }

  /** MFA-reset links have no cooldown: whatever it is set to, two can be issued to a user at the
      same instant. */
  lemma MfaResetsMayCoincide(cooldown: nat, user: int, at: int) returns (requests: History<Request>)
    ensures Timely(requests)
    ensures var db := Run(cooldown, requests);
            && 1 in db.rows && 2 in db.rows && For(db.rows[1], user, MfaReset) && For(db.rows[2], user, MfaReset)
            && db.rows[1].lastSentAt == at == db.rows[2].lastSentAt
  {
    var m := Moment(at, at, at + 1, true);
    var r1 := Then(Start, Registers(user, 0, m));
    var r2 := Then(r1, EnablesMfa(user));
    var r3 := Then(r2, AsksMfaReset(user, m));
    requests := Then(r3, AsksMfaReset(user, m));
    assert Run(cooldown, r1).next == 1 && user in Run(cooldown, r1).users;
    assert Run(cooldown, r2).users[user].mfa && Run(cooldown, r2).next == 1;
    assert Run(cooldown, r3).rows[1].lastSentAt == at && For(Run(cooldown, r3).rows[1], user, MfaReset);
    assert Run(cooldown, r3).next == 2 && Run(cooldown, r3).users[user].mfa;
    assert Timely(r1);
    assert Timely(r2);
    assert Timely(r3);
  }

  /** How often a token was accepted. */
  function Consumptions(cooldown: nat, requests: History<Request>, token: nat): nat {
    match requests
    case Start => 0
    case Then(before, r) =>
      Consumptions(cooldown, before, token) +
      if r.Presents? && r.token == token && Handle(Run(cooldown, before), r).Accepted? then 1 else 0
  }

  lemma SpentStays(db: Db, r: Request, token: nat)
    requires Inv(db)
    ensures var db' := Settled(db, Handle(db, r));
            && (token in db.rows ==> token in db'.rows && (!IsLive(db.rows[token]) ==> db'.rows[token] == db.rows[token]))
            && (r.Presents? && r.token == token && Handle(db, r).Accepted? ==>
                  token in db.rows && IsLive(db.rows[token]) && db'.rows[token].used.Some?)
  {
    assert RowOk(db, db.next);
  }

  /** No token is accepted twice; the accepted ones are those marked used. */
  lemma {:induction false} ConsumedAtMostOnce(cooldown: nat, requests: History<Request>, token: nat)
    requires Timely(requests)
    ensures var db := Run(cooldown, requests);
            && Consumptions(cooldown, requests, token) <= 1
            && (Consumptions(cooldown, requests, token) == 1 <==> token in db.rows && db.rows[token].used.Some?)
  {
    if requests.Then? {
      ConsumedAtMostOnce(cooldown, requests.before, token);
      RunKeepsInv(cooldown, requests.before);
      var db := Run(cooldown, requests.before);
      SpentStays(db, requests.latest, token);
      UsedOnlyByPresenting(db, requests.latest, token);
    }
  }

  lemma UsedOnlyByPresenting(db: Db, r: Request, token: nat)
    requires Inv(db)
    ensures var db' := Settled(db, Handle(db, r));
            token in db'.rows && db'.rows[token].used.Some? ==>
              || (token in db.rows && db.rows[token].used.Some?)
              || (r.Presents? && r.token == token && Handle(db, r).Accepted?)
  {
  }

  /** Acceptance of an e-mail change is final: the address is the one the token was sent
      to, nothing is pending, and no other token of that purpose is left live. */
  lemma EmailChangeCompletes(cooldown: nat, requests: History<Request>, token: nat, now: int, other: nat, later: int)
    requires Timely(requests)
    requires Consume(Run(cooldown, requests), token, EmailChange, now).Accepted?
    ensures var db := Run(cooldown, requests);
            var db' := Consume(db, token, EmailChange, now).db;
            var user := db.rows[token].user;
            && db'.users[user].email == db.rows[token].newEmail && db'.users[user].pendingEmail.None?
            && !EmailTaken(db, db.rows[token].newEmail)
            && (other in db'.rows && db'.rows[other].user == user ==> Consume(db', other, EmailChange, later).Rejected?)
  {
  }

  // ---------------------------------------------------------------- which requests are granted

  /** A mail for the user and purpose was sent less than the cooldown ago. */
  ghost predicate MailedLately(db: Db, user: int, purpose: Purpose, now: int) {
    exists k :: k in db.rows && For(db.rows[k], user, purpose) && now < db.rows[k].lastSentAt + db.cooldown
  }

  /** The check of the newest token stands for all of them. */
  lemma CoolingIsExact(db: Db, user: int, purpose: Purpose, now: int)
    requires Inv(db) && Cooled(purpose)
    ensures CoolingDown(db, user, purpose, now) <==> MailedLately(db, user, purpose, now)
  {
    LatestIsLast(db.rows, db.next, user, purpose);
    var latest := Latest(db.rows, db.next, user, purpose);
    if k :| k in db.rows && For(db.rows[k], user, purpose) && now < db.rows[k].lastSentAt + db.cooldown {
      assert RowOk(db, k) && PairOk(db, k, latest.value);
    }
  }

  /** A registration is granted exactly for a new user with an address that nobody has, if the mail is
      delivered; it adds the user, not verified and without MFA, and mails one token. */
  lemma RegisterIsExact(db: Db, user: int, email: int, m: Moment)
    ensures var o := Register(db, user, email, m);
            && !o.TooSoon?
            && (o.Accepted? <==> user !in db.users && (forall u :: u in db.users ==> db.users[u].email != email) && m.delivered)
            && (o.Accepted? ==> o.issued && o.db.users == db.users[user := User(email, None, false, false)])
  {
  }

  /** A mail that verifies an address goes out exactly to a user not verified yet, whose last such mail is
      the cooldown old, if it is delivered. */
  lemma ResendIsExact(db: Db, user: int, m: Moment)
    requires Inv(db)
    ensures var o := ResendVerification(db, user, m);
            && (o.TooSoon? <==> user in db.users && !db.users[user].verified && MailedLately(db, user, EmailVerification, m.check))
            && (o.Accepted? && o.issued <==>
                  && user in db.users && !db.users[user].verified
                  && !MailedLately(db, user, EmailVerification, m.check) && m.delivered)
            && (o.Accepted? && !o.issued <==> user in db.users && db.users[user].verified)
            && (o.Accepted? ==> o.db.users == db.users && (!o.issued ==> o.db == db))
  {
    CoolingIsExact(db, user, EmailVerification, m.check);
  }

  /** A password reset is mailed exactly to a user whose last one is the cooldown old; an unknown user is
      told the same and nothing happens. */
  lemma PasswordResetIsExact(db: Db, user: int, m: Moment)
    requires Inv(db)
    ensures var o := RequestPasswordReset(db, user, m);
            && !o.Rejected?
            && (o.TooSoon? <==> user in db.users && MailedLately(db, user, PasswordReset, m.check))
            && (o.Accepted? ==> (o.issued <==> user in db.users) && o.db.users == db.users && (!o.issued ==> o.db == db))
  {
    CoolingIsExact(db, user, PasswordReset, m.check);
  }

  /** A change of address is mailed exactly to a user who gives the password, for an address that nobody
      has and no other user has pending, when the last such mail is the cooldown old, if it is
      delivered; the address is then pending. */
  lemma ChangeRequestIsExact(db: Db, user: int, passwordOk: bool, newEmail: int, m: Moment)
    requires Inv(db)
    ensures
      var o := RequestEmailChange(db, user, passwordOk, newEmail, m);
      var may := user in db.users && passwordOk && forall u :: u in db.users ==> db.users[u].email != newEmail;
      && (o.TooSoon? <==> may && MailedLately(db, user, EmailChange, m.check))
      && (o.Accepted? <==>
            && may && !MailedLately(db, user, EmailChange, m.check) && m.delivered
            && forall u :: u in db.users && u != user ==> db.users[u].pendingEmail != Some(newEmail))
      && (o.Accepted? ==> o.issued && o.db.users == db.users[user := db.users[user].(pendingEmail := Some(newEmail))])
  {
    CoolingIsExact(db, user, EmailChange, m.check);
  }

  /** An MFA reset is mailed exactly to a user whose MFA is on; everybody is told the same. */
  lemma MfaRequestIsExact(db: Db, user: int, m: Moment)
    ensures var o := RequestMfaReset(db, user, m);
            o.Accepted? && (o.issued <==> user in db.users && db.users[user].mfa) && o.db.users == db.users && (!o.issued ==> o.db == db)
  {
  }

  /** What an accepted token does to the users, for each purpose, and to the tokens: it is used, and all
      others of its user and purpose that were live are revoked, except by an MFA reset. */
  lemma AcceptedTokenIsExact(db: Db, token: nat, purpose: Purpose, at: int, other: nat)
    requires Consume(db, token, purpose, at).Accepted? && other in db.rows
    ensures
      var o := Consume(db, token, purpose, at);
      var r, user, n := db.rows[token], db.rows[token].user, db.rows[other];
      && !o.issued && o.db.next == db.next && o.db.rows.Keys == db.rows.Keys && o.db.users.Keys == db.users.Keys
      && (forall u :: u in db.users && u != user ==> o.db.users[u] == db.users[u])
      && o.db.users[user] == (match purpose
                              case EmailVerification => db.users[user].(verified := true)
                              case PasswordReset => db.users[user]
                              case EmailChange => User(r.newEmail, None, true, db.users[user].mfa)
                              case MfaReset => db.users[user].(mfa := false))
      && o.db.rows[token] == r.(used := Some(at))
      && (other != token ==>
            o.db.rows[other] == if For(n, user, purpose) && IsLive(n) && !purpose.MfaReset? then n.(revoked := Some(at)) else n)
  {
  }

  // ---------------------------------------------------------------- what a mailed token is good for

  /** The request that mails a token of the purpose. */
  function Asking(user: int, purpose: Purpose, newEmail: int, m: Moment): Request {
    match purpose
    case EmailVerification => Resends(user, m)
    case PasswordReset => AsksPasswordReset(user, m)
    case EmailChange => AsksEmailChange(user, true, newEmail, m)
    case MfaReset => AsksMfaReset(user, m)
  }

  /** The round trip: the token of a granted request is accepted for the purpose asked for, and for no
      other, until it expires. */
  lemma MailedTokenIsAccepted(db: Db, user: int, purpose: Purpose, newEmail: int, m: Moment, p: Purpose, at: int)
    requires var o := Handle(db, Asking(user, purpose, newEmail, m)); o.Accepted? && o.issued
    ensures var o := Handle(db, Asking(user, purpose, newEmail, m));
            Consume(o.db, db.next, p, at).Accepted? <==> p == purpose && at < m.expiresAt
  {
  }

  /** What a granted request promised in its mail; the address is that of a change. */
  datatype Mail = Mail(user: int, purpose: Purpose, expiresAt: int, address: int)

  function MailOf(r: Request): Option<Mail> {
    match r
    case Registers(user, _, m) => Some(Mail(user, EmailVerification, m.expiresAt, 0))
    case Resends(user, m) => Some(Mail(user, EmailVerification, m.expiresAt, 0))
    case AsksPasswordReset(user, m) => Some(Mail(user, PasswordReset, m.expiresAt, 0))
    case AsksEmailChange(user, _, newEmail, m) => Some(Mail(user, EmailChange, m.expiresAt, newEmail))
    case AsksMfaReset(user, m) => Some(Mail(user, MfaReset, m.expiresAt, 0))
    case _ => None
  }

  /** The mail with which token k was sent, read off the run. */
  function MailFor(cooldown: nat, requests: History<Request>, k: nat): Option<Mail> {
    match requests
    case Start => None
    case Then(before, r) =>
      var db := Run(cooldown, before);
      if Handle(db, r).Accepted? && Handle(db, r).issued && db.next == k then MailOf(r) else MailFor(cooldown, before, k)
  }

  ghost predicate RowOfMail(r: Row, mail: Mail) {
    && r.user == mail.user && r.purpose == mail.purpose && r.expiresAt == mail.expiresAt
    && (r.purpose.EmailChange? ==> r.newEmail == mail.address)
  }

  /** A request writes the row of its mail, and no other; tokens that are presented keep theirs. */
  lemma RequestWritesMail(db: Db, r: Request, k: nat)
    requires Inv(db)
    ensures var o := Handle(db, r);
            var db' := Settled(db, o);
            && (o.Accepted? && o.issued ==>
                  db.next in db'.rows && MailOf(r).Some? && RowOfMail(db'.rows[db.next], MailOf(r).value) && db.next !in db.rows)
            && (k in db'.rows && !(o.Accepted? && o.issued && k == db.next) ==>
                  && k in db.rows && For(db'.rows[k], db.rows[k].user, db.rows[k].purpose)
                  && db'.rows[k].expiresAt == db.rows[k].expiresAt && db'.rows[k].newEmail == db.rows[k].newEmail)
  {
    assert RowOk(db, db.next);
  }

  lemma {:induction false} RowsAreMailed(cooldown: nat, requests: History<Request>, k: nat)
    requires Timely(requests)
    ensures var db := Run(cooldown, requests);
            k in db.rows ==> MailFor(cooldown, requests, k).Some? && RowOfMail(db.rows[k], MailFor(cooldown, requests, k).value)
  {
    if requests.Then? {
      RowsAreMailed(cooldown, requests.before, k);
      RunKeepsInv(cooldown, requests.before);
      RequestWritesMail(Run(cooldown, requests.before), requests.latest, k);
    }
  }

  /** After any run a token is accepted for a purpose exactly if it was mailed for that purpose, is
      neither used nor revoked, and has not reached the expiry of its mail; a change of address also
      needs the address of its mail still pending for the user, and free. */
  lemma AcceptanceIsExact(cooldown: nat, requests: History<Request>, token: nat, purpose: Purpose, at: int)
    requires Timely(requests)
    ensures var db := Run(cooldown, requests);
            var mail := MailFor(cooldown, requests, token);
            Consume(db, token, purpose, at).Accepted? <==>
              && token in db.rows && db.rows[token].used.None? && db.rows[token].revoked.None?
              && mail.Some? && mail.value.purpose == purpose && at < mail.value.expiresAt
              && mail.value.user in db.users
              && (purpose.EmailChange? ==>
                    && db.users[mail.value.user].pendingEmail == Some(mail.value.address)
                    && forall u :: u in db.users ==> db.users[u].email != mail.value.address)
  {
    RowsAreMailed(cooldown, requests, token);
    RunKeepsInv(cooldown, requests);
    assert RowOk(Run(cooldown, requests), token);
  }

  // ---------------------------------------------------------------- overlapping requests

  /** A request whose transaction is open, with what it has read so far.  Its row is numbered when it
      begins, because `created_at` is the time at which the transaction began. */
  datatype Txn =
    | Begun(row: nat)
    | Asked(row: nat, user: int, purpose: Purpose, address: int)
    | Issuing(row: nat, user: int, purpose: Purpose, address: int, read: set<nat>, at: int, seen: nat)
    | Checked(token: nat, purpose: Purpose, at: int)
    | Spending(token: nat, purpose: Purpose, at: int, read: set<nat>)

  /** The steps of requests that overlap: the start, the checks (with the staging of an address), the
      query for the tokens to revoke, and the commit that makes everything visible. */
  datatype Event =
    | Joins(user: int, email: int, m: Moment)
    | TurnsOnMfa(user: int)
    | Begin(txn: nat)
    | Ask(txn: nat, user: int, purpose: Purpose, newEmail: int, at: int)
    | Check(txn: nat, token: nat, purpose: Purpose, at: int)
    | Read(txn: nat, at: int)
    | Commit(txn: nat, expiresAt: int)
    | Abort(txn: nat)

  /** Commits are numbered.  The issue of a row had seen the first `seen` of them when it read which
      tokens to revoke, and is itself number `commit`. */
  datatype Span = Span(seen: nat, commit: nat)

  datatype Shared = Shared(db: Db, open: map<nat, Txn>, spans: map<nat, Span>, commits: nat, accepted: History<nat>)

  /** An open request holds the address it has staged. */
  predicate Holds(t: Txn) { (t.Asked? || t.Issuing?) && t.purpose.EmailChange? }

  /** The unique index on pending addresses has it for another user. */
  predicate Held(s: Shared, user: int, address: int) {
    || PendingTaken(s.db, user, address)
    || (exists y :: y in s.open && Holds(s.open[y]) && s.open[y].user != user && s.open[y].address == address)
  }

  /** The checks of a request for a mail. */
  predicate MayAsk(s: Shared, user: int, purpose: Purpose, newEmail: int, now: int) {
    && user in s.db.users
    && (Cooled(purpose) ==> !CoolingDown(s.db, user, purpose, now))
    && match purpose
       case EmailVerification => !s.db.users[user].verified
       case PasswordReset => true
       case EmailChange => !EmailTaken(s.db, newEmail) && !Held(s, user, newEmail)
       case MfaReset => s.db.users[user].mfa
  }

  function LiveFor(rows: map<nat, Row>, user: int, purpose: Purpose): set<nat> {
    set k | k in rows && For(rows[k], user, purpose) && IsLive(rows[k])
  }

  /** The rows with those of `read` revoked, whatever has become of them since. */
  function Swept(rows: map<nat, Row>, read: set<nat>, now: int): map<nat, Row> {
    map k | k in rows :: if k in read then rows[k].(revoked := Some(now)) else rows[k]
  }

  function Inserted(db: Db, t: Txn, expiresAt: int): Db
    requires t.Issuing? && t.user in db.users
  {
    db.(rows := Swept(db.rows, t.read, t.at)[t.row := Row(t.user, t.purpose, expiresAt, t.at, t.address, None, None)],
        users := if Holds(t) then db.users[t.user := db.users[t.user].(pendingEmail := Some(t.address))] else db.users)
  }

  /** The unique index on addresses refuses a change that another user's address forbids. */
  predicate WriteFails(db: Db, token: nat, purpose: Purpose) {
    || token !in db.rows || db.rows[token].user !in db.users
    || (purpose.EmailChange? &&
        exists u :: u in db.users && u != db.rows[token].user && db.users[u].email == db.rows[token].newEmail)
  }

  function Spent(db: Db, t: Txn): Db
    requires t.Spending? && !WriteFails(db, t.token, t.purpose)
  {
    db.(rows := Swept(Used(db.rows, t.token, t.at), t.read, t.at), users := Accounts(db, t.token, t.purpose))
  }

  /** The query of `revoke_account_tokens_for_user`, which sees the request's own writes. */
  function Reading(s: Shared, t: Txn, now: int): Txn {
    match t
    case Asked(row, user, purpose, address) =>
      Issuing(row, user, purpose, address, LiveFor(s.db.rows, user, purpose), now, s.commits)
    case Checked(token, purpose, at) =>
      Spending(token, purpose, at,
               if purpose.MfaReset? || token !in s.db.rows then {}
               else LiveFor(s.db.rows, s.db.rows[token].user, purpose) - {token})
    case _ => t
  }

  function Finish(s: Shared, txn: nat, expiresAt: int): Shared
    requires txn in s.open
  {
    var t, done := s.open[txn], s.(open := s.open - {txn});
    if t.Issuing? && t.user in s.db.users then
      done.(db := Inserted(s.db, t, expiresAt), spans := s.spans[t.row := Span(t.seen, s.commits)], commits := s.commits + 1)
    else if t.Spending? && !WriteFails(s.db, t.token, t.purpose) then
      done.(db := Spent(s.db, t), accepted := Then(s.accepted, t.token))
    else if t.Issuing? || t.Spending? then done
    else s
  }

  function Joined(s: Shared, o: Outcome): Shared {
    if !o.Accepted? then s
    else s.(db := o.db, spans := s.spans[s.db.next := Span(s.commits, s.commits)], commits := s.commits + 1)
  }

  function Act(s: Shared, e: Event): Shared {
    match e
    case Joins(user, email, m) => Joined(s, Register(s.db, user, email, m))
    case TurnsOnMfa(user) => s.(db := Settled(s.db, Handle(s.db, EnablesMfa(user))))
    case Begin(txn) =>
      if txn in s.open then s else s.(open := s.open[txn := Begun(s.db.next)], db := s.db.(next := s.db.next + 1))
    case Ask(txn, user, purpose, newEmail, now) =>
      if txn in s.open && s.open[txn].Begun? && MayAsk(s, user, purpose, newEmail, now) then
        s.(open := s.open[txn := Asked(s.open[txn].row, user, purpose, AddressOf(s.db, user, purpose, newEmail))])
      else s
    case Check(txn, token, purpose, now) =>
      if txn in s.open || Consume(s.db, token, purpose, now).Rejected? then s
      else s.(open := s.open[txn := Checked(token, purpose, now)])
    case Read(txn, now) => if txn in s.open then s.(open := s.open[txn := Reading(s, s.open[txn], now)]) else s
    case Commit(txn, expiresAt) => if txn in s.open then Finish(s, txn, expiresAt) else s
    case Abort(txn) => s.(open := s.open - {txn})
  }

  function Continue(s: Shared, events: History<Event>): Shared {
    match events
    case Start => s
    case Then(before, e) => Act(Continue(s, before), e)
  }

  function Interleave(cooldown: nat, events: History<Event>): Shared {
    Continue(Shared(Initial(cooldown), map[], map[], 0, Start), events)
  }

  function Acceptances(accepted: History<nat>, token: nat): nat {
    if accepted.Start? then 0 else Acceptances(accepted.before, token) + if accepted.latest == token then 1 else 0
  }

  /** The time at an event. */
  function Tick(e: Event, now: int): int {
    match e
    case Joins(_, _, m) => m.issue
    case Ask(_, _, _, _, at) => at
    case Check(_, _, _, at) => at
    case Read(_, at) => at
    case _ => now
  }

  /** The time after the events, which begin at `now`. */
  function Clock(events: History<Event>, now: int): int {
    if events.Start? then now else Tick(events.latest, Clock(events.before, now))
  }

  ghost predicate NotBefore(e: Event, now: int) {
    now <= Tick(e, now) && (e.Joins? ==> now <= e.m.check <= e.m.issue)
  }

  /** The clock does not run backwards. */
  ghost predicate Ordered(events: History<Event>, now: int) {
    events.Then? ==> Ordered(events.before, now) && NotBefore(events.latest, Clock(events.before, now))
  }

  /** One more event of a run that is being put together. */
  lemma Add(s: Shared, events: History<Event>, e: Event, now: int) returns (longer: History<Event>, s': Shared)
    requires Ordered(events, now) && NotBefore(e, Clock(events, now))
    ensures longer == Then(events, e) && Ordered(longer, now) && Clock(longer, now) == Tick(e, Clock(events, now))
    ensures s' == Continue(s, longer) == Act(Continue(s, events), e)
  {
    longer := Then(events, e);
    s' := Continue(s, longer);
  }

  // ---------------------------------------------------------------- steps that nothing comes between

  /** Taken one after the other, the steps of a presentation are the handler. */
  lemma CheckReadCommit(s: Shared, txn: nat, token: nat, purpose: Purpose, now: int, expiresAt: int)
    requires txn !in s.open
    ensures var apart := Act(Act(Act(s, Check(txn, token, purpose, now)), Read(txn, now)), Commit(txn, expiresAt));
            var whole := Consume(s.db, token, purpose, now);
            && apart.db == Settled(s.db, whole)
            && apart.accepted == if whole.Accepted? then Then(s.accepted, token) else s.accepted
  {
    if Consume(s.db, token, purpose, now).Accepted? {
      var apart := Act(Act(Act(s, Check(txn, token, purpose, now)), Read(txn, now)), Commit(txn, expiresAt));
      assert apart.db.rows == Effect(s.db, token, purpose, now).rows;
    }
  }

  lemma CoolingIgnoresNumbers(db: Db, user: int, purpose: Purpose, now: int)
    requires db.next !in db.rows
    ensures CoolingDown(db.(next := db.next + 1), user, purpose, now) == CoolingDown(db, user, purpose, now)
  {
  }

  /** The address that the token of a request is for. */
  function AddressOf(db: Db, user: int, purpose: Purpose, newEmail: int): int
    requires user in db.users
  {
    if purpose.EmailChange? then newEmail else db.users[user].email
  }

  lemma HandlerDecides(s: Shared, user: int, purpose: Purpose, newEmail: int, m: Moment)
    requires s.open == map[] && m.delivered
    ensures var whole := Handle(s.db, Asking(user, purpose, newEmail, m));
            && (whole.Accepted? && whole.issued <==> MayAsk(s, user, purpose, newEmail, m.check))
            && (MayAsk(s, user, purpose, newEmail, m.check) ==>
                  var t := Issuing(s.db.next, user, purpose, AddressOf(s.db, user, purpose, newEmail),
                                   LiveFor(s.db.rows, user, purpose), m.issue, 0);
                  whole.db == Inserted(s.db, t, m.expiresAt).(next := s.db.next + 1))
  {
    if MayAsk(s, user, purpose, newEmail, m.check) {
      assert Swept(s.db.rows, LiveFor(s.db.rows, user, purpose), m.issue) == RevokedRows(s.db.rows, user, purpose, m.issue);
    }
  }

  /** Taken one after the other, the steps of a request for a mail are the handler. */
  lemma AskReadCommit(s: Shared, txn: nat, user: int, purpose: Purpose, newEmail: int, m: Moment)
    requires s.open == map[] && s.db.next !in s.db.rows && m.delivered
    ensures var asked := Act(Act(s, Begin(txn)), Ask(txn, user, purpose, newEmail, m.check));
            var apart := Act(Act(asked, Read(txn, m.issue)), Commit(txn, m.expiresAt));
            var whole := Handle(s.db, Asking(user, purpose, newEmail, m));
            && (whole.Accepted? && whole.issued <==> MayAsk(s, user, purpose, newEmail, m.check))
            && (MayAsk(s, user, purpose, newEmail, m.check) ==> apart.db == whole.db && apart.open == map[])
  {
    HandlerDecides(s, user, purpose, newEmail, m);
    if MayAsk(s, user, purpose, newEmail, m.check) {
      CoolingIgnoresNumbers(s.db, user, purpose, m.check);
      var begun := Act(s, Begin(txn));
      StillMayAsk(s, begun, user, purpose, newEmail, m.check);
      var asked := Act(begun, Ask(txn, user, purpose, newEmail, m.check));
      assert asked.open[txn] == Asked(s.db.next, user, purpose, AddressOf(s.db, user, purpose, newEmail));
    }
  }

  // ---------------------------------------------------------------- what overlapping requests keep

  /** A row belongs to a user, and its issue is among the commits. */
  ghost predicate RowSpan(s: Shared, i: nat) {
    && (i in s.db.rows <==> i in s.spans)
    && (i in s.db.rows ==> i < s.db.next && s.db.rows[i].user in s.db.users && s.spans[i].seen <= s.spans[i].commit < s.commits)
  }

  /** A token is live only until an issue that has seen it commits. */
  ghost predicate Superseded(s: Shared, i: nat, j: nat) {
    && i in s.db.rows && j in s.db.rows && i in s.spans && j in s.spans
    && For(s.db.rows[j], s.db.rows[i].user, s.db.rows[i].purpose)
    && s.spans[i].commit < s.spans[j].seen
    ==> !IsLive(s.db.rows[i])
  }

  /** The row that an open request will insert. */
  predicate Numbered(t: Txn) { t.Begun? || t.Asked? || t.Issuing? }

  ghost predicate TxnOk(s: Shared, x: nat) {
    x in s.open ==>
      var t := s.open[x];
      && (Numbered(t) ==> t.row < s.db.next && t.row !in s.db.rows)
      && (t.Asked? || t.Issuing? ==> t.user in s.db.users)
      && (t.Issuing? ==> t.seen <= s.commits && t.read <= s.db.rows.Keys)
      && (t.Checked? || t.Spending? ==> t.token in s.db.rows)
  }

  ghost predicate RowsDiffer(s: Shared, x: nat, y: nat) {
    x != y && x in s.open && y in s.open && Numbered(s.open[x]) && Numbered(s.open[y]) ==> s.open[x].row != s.open[y].row
  }

  /** What an issue has read is what was committed then, and what of it is live now. */
  ghost predicate ReadOk(s: Shared, x: nat, k: nat) {
    x in s.open && s.open[x].Issuing? && k in s.db.rows && k in s.spans ==>
      var t := s.open[x];
      && (k in t.read ==> s.spans[k].commit < t.seen)
      && (For(s.db.rows[k], t.user, t.purpose) && IsLive(s.db.rows[k]) && s.spans[k].commit < t.seen ==> k in t.read)
  }

  ghost predicate SharedInv(s: Shared) {
    && (forall i :: RowSpan(s, i))
    && (forall i, j :: Superseded(s, i, j))
    && (forall x :: TxnOk(s, x))
    && (forall x, y :: RowsDiffer(s, x, y))
    && (forall x, k :: ReadOk(s, x, k))
  }

  lemma JoinKeepsInv(s: Shared, user: int, email: int, m: Moment)
    requires SharedInv(s)
    ensures SharedInv(Act(s, Joins(user, email, m)))
  {
    var s' := Act(s, Joins(user, email, m));
    assert RowSpan(s, s.db.next);
    forall i ensures RowSpan(s', i) { assert RowSpan(s, i); }
    forall i, j ensures Superseded(s', i, j) { assert Superseded(s, i, j) && RowSpan(s, i) && RowSpan(s, j); }
    forall x ensures TxnOk(s', x) { assert TxnOk(s, x); }
    forall x, y ensures RowsDiffer(s', x, y) { assert RowsDiffer(s, x, y); }
    forall x, k ensures ReadOk(s', x, k) { assert ReadOk(s, x, k) && TxnOk(s, x) && RowSpan(s, k); }
  }

  /** Steps that leave the tables alone, but for users and numbers. */
  lemma OpeningKeepsInv(s: Shared, e: Event)
    requires SharedInv(s) && (e.TurnsOnMfa? || e.Begin? || e.Ask? || e.Check? || e.Abort?)
    ensures SharedInv(Act(s, e))
  {
    var s' := Act(s, e);
    assert RowSpan(s, s.db.next);
    forall i ensures RowSpan(s', i) { assert RowSpan(s, i); }
    forall i, j ensures Superseded(s', i, j) { assert Superseded(s, i, j); }
    forall x ensures TxnOk(s', x) { assert TxnOk(s, x); }
    forall x, y ensures RowsDiffer(s', x, y) { assert RowsDiffer(s, x, y) && TxnOk(s, x) && TxnOk(s, y); }
    forall x, k ensures ReadOk(s', x, k) { assert ReadOk(s, x, k); }
  }

  lemma ReadKeepsInv(s: Shared, txn: nat, now: int)
    requires SharedInv(s)
    ensures SharedInv(Act(s, Read(txn, now)))
  {
    var s' := Act(s, Read(txn, now));
    forall i ensures RowSpan(s', i) { assert RowSpan(s, i); }
    forall i, j ensures Superseded(s', i, j) { assert Superseded(s, i, j); }
    forall x ensures TxnOk(s', x) { assert TxnOk(s, x); }
    forall x, y ensures RowsDiffer(s', x, y) { assert RowsDiffer(s, x, y); }
    forall x, k ensures ReadOk(s', x, k) { assert ReadOk(s, x, k) && RowSpan(s, k); }
  }

  lemma PublishKeepsInv(s: Shared, txn: nat, expiresAt: int)
    requires SharedInv(s) && txn in s.open && s.open[txn].Issuing?
    ensures SharedInv(Act(s, Commit(txn, expiresAt)))
  {
    var s', t := Act(s, Commit(txn, expiresAt)), s.open[txn];
    assert TxnOk(s, txn);
    forall i ensures RowSpan(s', i) { assert RowSpan(s, i); }
    forall i, j ensures Superseded(s', i, j) {
      assert Superseded(s, i, j) && RowSpan(s, i) && RowSpan(s, j) && ReadOk(s, txn, i);
    }
    forall x ensures TxnOk(s', x) { assert TxnOk(s, x) && RowsDiffer(s, x, txn); }
    forall x, y ensures RowsDiffer(s', x, y) { assert RowsDiffer(s, x, y); }
    forall x, k ensures ReadOk(s', x, k) { assert ReadOk(s, x, k) && TxnOk(s, x); }
  }

  lemma ConcludeKeepsInv(s: Shared, txn: nat, expiresAt: int)
    requires SharedInv(s) && txn in s.open && !s.open[txn].Issuing?
    ensures SharedInv(Act(s, Commit(txn, expiresAt)))
  {
    var s' := Act(s, Commit(txn, expiresAt));
    forall i ensures RowSpan(s', i) { assert RowSpan(s, i); }
    forall i, j ensures Superseded(s', i, j) { assert Superseded(s, i, j); }
    forall x ensures TxnOk(s', x) { assert TxnOk(s, x); }
    forall x, y ensures RowsDiffer(s', x, y) { assert RowsDiffer(s, x, y); }
    forall x, k ensures ReadOk(s', x, k) { assert ReadOk(s, x, k); }
  }

  lemma ActKeepsInv(s: Shared, e: Event)
    requires SharedInv(s)
    ensures SharedInv(Act(s, e))
  {
    match e
    case Joins(user, email, m) => JoinKeepsInv(s, user, email, m);
    case Read(txn, now) => ReadKeepsInv(s, txn, now);
    case Commit(txn, expiresAt) =>
      if txn in s.open {
        if s.open[txn].Issuing? { PublishKeepsInv(s, txn, expiresAt); } else { ConcludeKeepsInv(s, txn, expiresAt); }
      }
    case _ => OpeningKeepsInv(s, e);
  }

  lemma {:induction false} ContinueKeepsInv(s: Shared, events: History<Event>)
    requires SharedInv(s)
    ensures SharedInv(Continue(s, events))
  {
    if events.Then? {
      ContinueKeepsInv(s, events.before);
      ActKeepsInv(Continue(s, events.before), events.latest);
    }
  }

  lemma {:induction false} InterleaveKeepsInv(cooldown: nat, events: History<Event>)
    ensures SharedInv(Interleave(cooldown, events))
  {
    ContinueKeepsInv(Shared(Initial(cooldown), map[], map[], 0, Start), events);
  }

  /** The steps of one request of a run, as txn 0, and the state they leave. */
  lemma RequestIsSteps(cooldown: nat, events: History<Event>, r: Request) returns (longer: History<Event>)
    requires Interleave(cooldown, events).open == map[]
    ensures Interleave(cooldown, longer).open == map[]
    ensures Interleave(cooldown, longer).db == Settled(Interleave(cooldown, events).db, Handle(Interleave(cooldown, events).db, r))
  {
    var s := Interleave(cooldown, events);
    InterleaveKeepsInv(cooldown, events);
    assert RowSpan(s, s.db.next);
    match r
    case Registers(user, email, m) => longer := Then(events, Joins(user, email, m));
    case EnablesMfa(user) => longer := Then(events, TurnsOnMfa(user));
    case Presents(token, purpose, at) => longer := PresentationIsSteps(cooldown, events, token, purpose, at);
    case Resends(user, m) => longer := MailIsSteps(cooldown, events, user, EmailVerification, 0, m, r);
    case AsksPasswordReset(user, m) => longer := MailIsSteps(cooldown, events, user, PasswordReset, 0, m, r);
    case AsksMfaReset(user, m) => longer := MailIsSteps(cooldown, events, user, MfaReset, 0, m, r);
    case AsksEmailChange(user, ok, newEmail, m) =>
      longer := events;
      if ok { longer := MailIsSteps(cooldown, events, user, EmailChange, newEmail, m, r); }
  }

  lemma PresentationIsSteps(cooldown: nat, events: History<Event>, token: nat, purpose: Purpose, at: int) returns (longer: History<Event>)
    requires Interleave(cooldown, events).open == map[]
    ensures Interleave(cooldown, longer).open == map[]
    ensures var db := Interleave(cooldown, events).db;
            Interleave(cooldown, longer).db == Settled(db, Consume(db, token, purpose, at))
  {
    var s := Interleave(cooldown, events);
    longer := events;
    if Consume(s.db, token, purpose, at).Accepted? {
      CheckReadCommit(s, 0, token, purpose, at, 0);
      var checked := Then(events, Check(0, token, purpose, at));
      var read := Then(checked, Read(0, at));
      longer := Then(read, Commit(0, 0));
      assert Interleave(cooldown, checked).open == map[0 := Checked(token, purpose, at)];
      assert Interleave(cooldown, read).open.Keys == {0} && Interleave(cooldown, read).open[0].Spending?;
    }
  }

  lemma MailIsSteps(cooldown: nat, events: History<Event>, user: int, purpose: Purpose, newEmail: int, m: Moment, r: Request)
    returns (longer: History<Event>)
    requires Interleave(cooldown, events).open == map[]
    requires r == Asking(user, purpose, newEmail, m)
    ensures Interleave(cooldown, longer).open == map[]
    ensures Interleave(cooldown, longer).db == Settled(Interleave(cooldown, events).db, Handle(Interleave(cooldown, events).db, r))
  {
    var s := Interleave(cooldown, events);
    InterleaveKeepsInv(cooldown, events);
    assert RowSpan(s, s.db.next);
    longer := events;
    if Handle(s.db, r).Accepted? && Handle(s.db, r).issued {
      AskReadCommit(s, 0, user, purpose, newEmail, m.(delivered := true));
      var begun := Then(events, Begin(0));
      var asked := Then(begun, Ask(0, user, purpose, newEmail, m.check));
      var read := Then(asked, Read(0, m.issue));
      longer := Then(read, Commit(0, m.expiresAt));
      assert Interleave(cooldown, begun) == Act(s, Begin(0));
      assert Interleave(cooldown, asked) == Act(Interleave(cooldown, begun), Ask(0, user, purpose, newEmail, m.check));
      assert Interleave(cooldown, read) == Act(Interleave(cooldown, asked), Read(0, m.issue));
    }
  }

  /** Requests one at a time are among the interleavings: every state of the simple model is reached. */
  lemma {:induction false} RunIsInterleaving(cooldown: nat, requests: History<Request>) returns (events: History<Event>)
    ensures Interleave(cooldown, events).open == map[] && Interleave(cooldown, events).db == Run(cooldown, requests)
  {
    events := Start;
    if requests.Then? {
      var before := RunIsInterleaving(cooldown, requests.before);
      events := RequestIsSteps(cooldown, before, requests.latest);
    }
  }

  // ---------------------------------------------------------------- when a token is the only live one

  /** No other token of its user and purpose is live. */
  ghost predicate Alone(rows: map<nat, Row>, k: nat) {
    forall i :: i in rows && k in rows && For(rows[i], rows[k].user, rows[k].purpose) && IsLive(rows[i]) ==> i == k
  }

  /** Two tokens of a user and purpose are live at once only if their issues overlapped: each read
      which tokens to revoke before the other committed. */
  lemma TwoLiveOverlapped(cooldown: nat, events: History<Event>, i: nat, j: nat)
    requires var s := Interleave(cooldown, events);
             && i in s.db.rows && j in s.db.rows && For(s.db.rows[j], s.db.rows[i].user, s.db.rows[i].purpose)
             && IsLive(s.db.rows[i]) && IsLive(s.db.rows[j])
    ensures var s := Interleave(cooldown, events);
            && i in s.spans && j in s.spans
            && s.spans[i].seen <= s.spans[j].commit && s.spans[j].seen <= s.spans[i].commit
  {
    InterleaveKeepsInv(cooldown, events);
    var s := Interleave(cooldown, events);
    assert RowSpan(s, i) && RowSpan(s, j) && Superseded(s, i, j) && Superseded(s, j, i);
  }

  /** A token just committed is the only live one of its user and purpose if and only if no other was
      committed since its issue read which to revoke, and is still live. */
  lemma CommitIsExact(cooldown: nat, events: History<Event>, txn: nat, expiresAt: int)
    requires var s := Interleave(cooldown, events); txn in s.open && s.open[txn].Issuing?
    ensures var s := Interleave(cooldown, events);
            var t := s.open[txn];
            var rows := Act(s, Commit(txn, expiresAt)).db.rows;
            && t.row in rows && For(rows[t.row], t.user, t.purpose) && IsLive(rows[t.row])
            && (Alone(rows, t.row) <==>
                  forall k :: k in s.spans && t.seen <= s.spans[k].commit && k in s.db.rows && For(s.db.rows[k], t.user, t.purpose)
                              ==> !IsLive(s.db.rows[k]))
  {
    InterleaveKeepsInv(cooldown, events);
    var s := Interleave(cooldown, events);
    var t, rows := s.open[txn], Act(s, Commit(txn, expiresAt)).db.rows;
    assert TxnOk(s, txn);
    forall k | k in s.db.rows && For(s.db.rows[k], t.user, t.purpose)
      ensures k in s.spans && k in rows && For(rows[k], t.user, t.purpose) && k != t.row
      ensures IsLive(rows[k]) <==> IsLive(s.db.rows[k]) && t.seen <= s.spans[k].commit
    {
      assert RowSpan(s, k) && ReadOk(s, txn, k);
    }
  }

  /** Whatever happens, the token is the only live one of its user and purpose while it is live. */
  ghost predicate StaysAlone(s: Shared, k: nat) {
    forall later :: AloneAfter(s, later, k)
  }

  ghost predicate AloneAfter(s: Shared, later: History<Event>, k: nat) {
    var rows := Continue(s, later).db.rows;
    k in rows && IsLive(rows[k]) ==> Alone(rows, k)
  }

  /** An issue under way for the user and purpose of row k that had not seen it when it read. */
  predicate Misses(s: Shared, x: nat, k: nat)
    requires k in s.db.rows && k in s.spans
  {
    x in s.open && s.open[x].Issuing? && For(s.db.rows[k], s.open[x].user, s.open[x].purpose) && s.open[x].seen <= s.spans[k].commit
  }

  ghost predicate Guarded(s: Shared, k: nat) {
    && SharedInv(s) && k in s.db.rows && k in s.spans
    && (IsLive(s.db.rows[k]) ==> Alone(s.db.rows, k) && forall x :: !Misses(s, x, k))
  }

  lemma ActKeepsGuarded(s: Shared, e: Event, k: nat)
    requires Guarded(s, k)
    ensures Guarded(Act(s, e), k)
  {
    ActKeepsInv(s, e);
    var s' := Act(s, e);
    assert RowSpan(s, k) && RowSpan(s', k);
    if IsLive(s'.db.rows[k]) {
      if e.Commit? && e.txn in s.open {
        assert ReadOk(s, e.txn, k) && TxnOk(s, e.txn) && !Misses(s, e.txn, k);
      }
      forall x ensures !Misses(s', x, k) { assert !Misses(s, x, k); }
    }
  }

  lemma {:induction false} ContinueKeepsGuarded(s: Shared, later: History<Event>, k: nat)
    requires Guarded(s, k)
    ensures Guarded(Continue(s, later), k)
  {
    if later.Then? {
      ContinueKeepsGuarded(s, later.before, k);
      ActKeepsGuarded(Continue(s, later.before), later.latest, k);
    }
  }

  /** A live token is and stays the only live one of its user and purpose, in every continuation, if
      and only if it is now and no issue under way read before the token was committed. */
  lemma AloneIsExact(cooldown: nat, events: History<Event>, k: nat)
    requires var s := Interleave(cooldown, events); k in s.db.rows && k in s.spans && IsLive(s.db.rows[k])
    ensures var s := Interleave(cooldown, events);
            StaysAlone(s, k) <==> Alone(s.db.rows, k) && forall x :: !Misses(s, x, k)
  {
    InterleaveKeepsInv(cooldown, events);
    var s := Interleave(cooldown, events);
    if Alone(s.db.rows, k) && forall x :: !Misses(s, x, k) {
      forall later ensures AloneAfter(s, later, k) {
        ContinueKeepsGuarded(s, later, k);
      }
    } else if Alone(s.db.rows, k) {
      var x :| Misses(s, x, k);
      MissedStaysLive(s, x, k);
      assert !AloneAfter(s, Then(Start, Commit(x, 0)), k);
    } else {
      assert !AloneAfter(s, Start, k);
    }
  }

  lemma MissedStaysLive(s: Shared, x: nat, k: nat)
    requires SharedInv(s) && k in s.db.rows && k in s.spans && IsLive(s.db.rows[k]) && Misses(s, x, k)
    ensures var rows := Continue(s, Then(Start, Commit(x, 0))).db.rows;
            k in rows && IsLive(rows[k]) && !Alone(rows, k)
  {
    assert Continue(s, Start) == s;
    var rows, i := Act(s, Commit(x, 0)).db.rows, s.open[x].row;
    assert TxnOk(s, x) && ReadOk(s, x, k);
    assert i in rows && i != k && IsLive(rows[i]) && For(rows[i], rows[k].user, rows[k].purpose);
  }

  /** A request that has passed its check reads and commits. */
  lemma ReadAndIssue(s: Shared, events: History<Event>, x: nat, at: int, expiresAt: int, now: int) returns (later: History<Event>)
    requires Ordered(events, now) && Clock(events, now) <= at
    requires var s1 := Continue(s, events); x in s1.open && s1.open[x].Asked? && s1.open[x].user in s1.db.users
    ensures Ordered(later, now) && Clock(later, now) == at
    ensures var s1, s' := Continue(s, events), Continue(s, later);
            && s'.db == Inserted(s1.db, Reading(s1, s1.open[x], at), expiresAt)
            && s'.open == s1.open - {x} && s'.accepted == s1.accepted
  {
    var h, s2 := Add(s, events, Read(x, at), now);
    assert s2.open - {x} == Continue(s, events).open - {x};
    var s3;
    later, s3 := Add(s, h, Commit(x, expiresAt), now);
  }

  /** So does a presentation. */
  lemma ReadAndSpend(s: Shared, events: History<Event>, x: nat, at: int, now: int) returns (later: History<Event>)
    requires Ordered(events, now) && Clock(events, now) <= at
    requires var s1 := Continue(s, events);
             x in s1.open && s1.open[x].Checked? && !WriteFails(s1.db, s1.open[x].token, s1.open[x].purpose)
    ensures Ordered(later, now) && Clock(later, now) == at
    ensures var s1, s' := Continue(s, events), Continue(s, later);
            && s'.db == Spent(s1.db, Reading(s1, s1.open[x], at))
            && s'.open == s1.open - {x} && s'.accepted == Then(s1.accepted, s1.open[x].token)
  {
    var h, s2 := Add(s, events, Read(x, at), now);
    assert s2.open - {x} == Continue(s, events).open - {x};
    var s3;
    later, s3 := Add(s, h, Commit(x, 0), now);
  }

  /** A request begins and passes its check. */
  lemma BeginAndAsk(s: Shared, events: History<Event>, x: nat, user: int, purpose: Purpose, newEmail: int, at: int, now: int)
    returns (later: History<Event>)
    requires Ordered(events, now) && Clock(events, now) <= at
    requires var s1 := Continue(s, events);
             x !in s1.open && s1.db.next !in s1.db.rows && MayAsk(s1, user, purpose, newEmail, at)
    ensures Ordered(later, now) && Clock(later, now) == at
    ensures var s1 := Continue(s, events);
            var asked := Asked(s1.db.next, user, purpose, AddressOf(s1.db, user, purpose, newEmail));
            Continue(s, later) == s1.(open := s1.open[x := asked], db := s1.db.(next := s1.db.next + 1))
  {
    var s1 := Continue(s, events);
    var h, s2 := Add(s, events, Begin(x), now);
    CoolingIgnoresNumbers(s1.db, user, purpose, at);
    StillMayAsk(s1, s2, user, purpose, newEmail, at);
    var s3;
    later, s3 := Add(s, h, Ask(x, user, purpose, newEmail, at), now);
  }

  /** Two requests that both pass their checks. */
  lemma BothAsk(s: Shared, x: nat, y: nat, user: int, purpose: Purpose, newEmail: int, at: int) returns (later: History<Event>)
    requires SharedInv(s) && x !in s.open && y !in s.open && x != y && MayAsk(s, user, purpose, newEmail, at)
    ensures Ordered(later, at) && Clock(later, at) == at
    ensures var s', address := Continue(s, later), AddressOf(s.db, user, purpose, newEmail);
            && s'.db == s.db.(next := s.db.next + 2) && s'.commits == s.commits
            && s'.open == s.open[x := Asked(s.db.next, user, purpose, address)][y := Asked(s.db.next + 1, user, purpose, address)]
  {
    assert RowSpan(s, s.db.next) && RowSpan(s, s.db.next + 1) && Continue(s, Start) == s;
    var h := BeginAndAsk(s, Start, x, user, purpose, newEmail, at, at);
    CoolingIgnoresNumbers(s.db, user, purpose, at);
    StillMayAsk(s, Continue(s, h), user, purpose, newEmail, at);
    later := BeginAndAsk(s, h, y, user, purpose, newEmail, at, at);
  }

  /** Two requests that both read before either commits. */
  lemma BothRead(s: Shared, x: nat, y: nat, user: int, purpose: Purpose, newEmail: int, at: int) returns (later: History<Event>)
    requires SharedInv(s) && x !in s.open && y !in s.open && x != y && MayAsk(s, user, purpose, newEmail, at)
    ensures Ordered(later, at) && Clock(later, at) == at
    ensures var s', address, read := Continue(s, later), AddressOf(s.db, user, purpose, newEmail), LiveFor(s.db.rows, user, purpose);
            && s'.db.rows == s.db.rows && s'.db.users == s.db.users && x in s'.open && y in s'.open
            && s'.open[x] == Issuing(s.db.next, user, purpose, address, read, at, s.commits)
            && s'.open[y] == Issuing(s.db.next + 1, user, purpose, address, read, at, s.commits)
  {
    var h1 := BothAsk(s, x, y, user, purpose, newEmail, at);
    var h2, s2 := Add(s, h1, Read(x, at), at);
    var s3;
    later, s3 := Add(s, h2, Read(y, at), at);
  }

  /** For every state in which a user may ask for a mail: two requests that overlap mail at the same
      moment, and leave two live tokens.  A change of address asks again for the address that is
      pending, or else the second request would wait for the lock on the user's row. */
  lemma OverlapLeavesTwo(s: Shared, x: nat, y: nat, user: int, purpose: Purpose, newEmail: int, at: int)
    returns (later: History<Event>)
    requires SharedInv(s) && x !in s.open && y !in s.open && x != y && MayAsk(s, user, purpose, newEmail, at)
    requires purpose.EmailChange? ==> s.db.users[user].pendingEmail == Some(newEmail)
    ensures Ordered(later, at) && Clock(later, at) == at
    ensures var rows, i := Continue(s, later).db.rows, s.db.next;
            && i in rows && For(rows[i], user, purpose) && IsLive(rows[i]) && rows[i].lastSentAt == at
            && i + 1 in rows && For(rows[i + 1], user, purpose) && IsLive(rows[i + 1]) && rows[i + 1].lastSentAt == at
  {
    assert RowSpan(s, s.db.next) && RowSpan(s, s.db.next + 1);
    var h1 := BothRead(s, x, y, user, purpose, newEmail, at);
    var h2, s2 := Add(s, h1, Commit(x, at), at);
    assert s2.open[y] == Continue(s, h1).open[y];
    var s3;
    later, s3 := Add(s, h2, Commit(y, at), at);
  }

  lemma StillMayAsk(s: Shared, s': Shared, user: int, purpose: Purpose, newEmail: int, at: int)
    requires MayAsk(s, user, purpose, newEmail, at)
    requires s'.db.users == s.db.users
    requires CoolingDown(s'.db, user, purpose, at) == CoolingDown(s.db, user, purpose, at)
    requires forall z :: z in s'.open && Holds(s'.open[z]) && s'.open[z].user != user ==> z in s.open && s'.open[z] == s.open[z]
    ensures MayAsk(s', user, purpose, newEmail, at)
  {
  }

  /** An accepted token can be written again. */
  lemma AcceptedIsWritable(db: Db, token: nat, purpose: Purpose, at: int, read: set<nat>)
    requires Consume(db, token, purpose, at).Accepted?
    ensures !WriteFails(db, token, purpose)
    ensures !WriteFails(Spent(db, Spending(token, purpose, at, read)), token, purpose)
  {
  }

  /** For every state in which a token would be accepted: two presentations that overlap are both accepted. */
  lemma OverlapAcceptsTwice(s: Shared, x: nat, y: nat, token: nat, purpose: Purpose, at: int) returns (later: History<Event>)
    requires x !in s.open && y !in s.open && x != y && Consume(s.db, token, purpose, at).Accepted?
    ensures Ordered(later, at) && Clock(later, at) == at
    ensures Acceptances(Continue(s, later).accepted, token) == Acceptances(s.accepted, token) + 2
  {
    assert Continue(s, Start) == s;
    var h1, s1 := Add(s, Start, Check(x, token, purpose, at), at);
    var h2, s2 := Add(s, h1, Check(y, token, purpose, at), at);
    assert s2.db == s.db && s2.open[x] == s2.open[y] == Checked(token, purpose, at);
    AcceptedIsWritable(s.db, token, purpose, at, Reading(s2, s2.open[x], at).read);
    var h3 := ReadAndSpend(s, h2, x, at, at);
    later := ReadAndSpend(s, h3, y, at, at);
  }

  // ---------------------------------------------------------------- addresses

  /** No two users have an address, or an address pending, in common. */
  ghost predicate AddressesDiffer(s: Shared, u: int, v: int) {
    u != v && u in s.db.users && v in s.db.users ==>
      && s.db.users[u].email != s.db.users[v].email
      && (s.db.users[u].pendingEmail.Some? ==> s.db.users[u].pendingEmail != s.db.users[v].pendingEmail)
  }

  /** What an open request has staged nobody else has pending. */
  ghost predicate StagedAlone(s: Shared, x: nat, v: int) {
    x in s.open && Holds(s.open[x]) && v in s.db.users && v != s.open[x].user ==> s.db.users[v].pendingEmail != Some(s.open[x].address)
  }

  ghost predicate StagedApart(s: Shared, x: nat, y: nat) {
    x in s.open && y in s.open && Holds(s.open[x]) && Holds(s.open[y]) && s.open[x].user != s.open[y].user
    ==> s.open[x].address != s.open[y].address
  }

  ghost predicate AddressInv(s: Shared) {
    (forall u, v :: AddressesDiffer(s, u, v)) && (forall x, v :: StagedAlone(s, x, v)) && (forall x, y :: StagedApart(s, x, y))
  }

  lemma UsersStayApart(s: Shared, e: Event, u: int, v: int)
    requires AddressInv(s)
    ensures AddressesDiffer(Act(s, e), u, v)
  {
    assert AddressesDiffer(s, u, v);
    if e.Commit? { assert StagedAlone(s, e.txn, u) && StagedAlone(s, e.txn, v); }
  }

  lemma ActKeepsAddresses(s: Shared, e: Event)
    requires AddressInv(s)
    ensures AddressInv(Act(s, e))
  {
    var s' := Act(s, e);
    forall u, v ensures AddressesDiffer(s', u, v) { UsersStayApart(s, e, u, v); }
    forall x, v ensures StagedAlone(s', x, v) {
      assert StagedAlone(s, x, v);
      if e.Commit? { assert StagedApart(s, x, e.txn); }
    }
    forall x, y ensures StagedApart(s', x, y) { assert StagedApart(s, x, y); }
  }

  /** However requests overlap, the unique indexes on addresses hold, and what a request has staged
      cannot be refused when it commits. */
  lemma {:induction false} InterleaveKeepsAddresses(cooldown: nat, events: History<Event>)
    ensures AddressInv(Interleave(cooldown, events))
  {
    if events.Then? {
      InterleaveKeepsAddresses(cooldown, events.before);
      ActKeepsAddresses(Interleave(cooldown, events.before), events.latest);
    }
  }

  /** Neither anybody's address, nor pending, nor staged. */
  ghost predicate Fresh(s: Shared, email: int) {
    && !EmailTaken(s.db, email)
    && (forall v :: v in s.db.users ==> s.db.users[v].pendingEmail != Some(email))
    && (forall y :: y in s.open && Holds(s.open[y]) ==> s.open[y].address != email)
  }

  lemma FreshAddress(s: Shared) returns (email: int)
    ensures Fresh(s, email)
  {
    var emails := set u | u in s.db.users :: s.db.users[u].email;
    var pending := set u | u in s.db.users && s.db.users[u].pendingEmail.Some? :: s.db.users[u].pendingEmail.value;
    var staged := set y | y in s.open && Holds(s.open[y]) :: s.open[y].address;
    email := AboveAll(emails + pending + staged);
    assert forall u :: u in s.db.users ==> s.db.users[u].email in emails;
    assert forall y :: y in s.open && Holds(s.open[y]) ==> s.open[y].address in staged;
    forall v | v in s.db.users && s.db.users[v].pendingEmail.Some? ensures s.db.users[v].pendingEmail.value in pending {}
  }

  /** A user can ask for a mail once its cooldown is over. */
  lemma CooledLater(db: Db, user: int, purpose: Purpose, now: int) returns (t: int)
    ensures now <= t && !CoolingDown(db, user, purpose, t)
    ensures t != now ==> var latest := Latest(db.rows, db.next, user, purpose);
                         latest.Some? && latest.value in db.rows && t == db.rows[latest.value].lastSentAt + db.cooldown
  {
    var latest := Latest(db.rows, db.next, user, purpose);
    t := now;
    if latest.Some? && latest.value in db.rows && now < db.rows[latest.value].lastSentAt + db.cooldown {
      t := db.rows[latest.value].lastSentAt + db.cooldown;
    }
  }

  /** A user asks for a new address and gets its token, in the steps of request y at `t`. */
  lemma AsksForAddress(s: Shared, y: nat, user: int, email: int, t: int, now: int) returns (later: History<Event>)
    requires SharedInv(s) && user in s.db.users && Fresh(s, email) && now <= t && !CoolingDown(s.db, user, EmailChange, t)
    ensures Ordered(later, now) && Clock(later, now) == t
    ensures var s' := Continue(s, later);
            && s'.open == s.open - {y} && s'.accepted == s.accepted
            && s'.db.users == s.db.users[user := s.db.users[user].(pendingEmail := Some(email))]
            && s.db.next in s'.db.rows && s'.db.rows[s.db.next] == Row(user, EmailChange, t + 1, t, email, None, None)
            && SameOwners(s.db.rows, s'.db.rows)
  {
    assert RowSpan(s, s.db.next) && Continue(s, Start) == s;
    var h1, s1 := Add(s, Start, Abort(y), now);
    assert MayAsk(s1, user, EmailChange, email, t);
    var h2 := BeginAndAsk(s, h1, y, user, EmailChange, email, t, now);
    assert Continue(s, h2).open - {y} == s.open - {y};
    later := ReadAndIssue(s, h2, y, t, t + 1, now);
  }

  /** The rows are still there, for the same users and addresses. */
  ghost predicate SameOwners(rows: map<nat, Row>, rows': map<nat, Row>) {
    forall k :: k in rows ==> k in rows' && rows'[k].user == rows[k].user && rows'[k].newEmail == rows[k].newEmail
  }

  /** An acceptable token is presented, in the steps of request y. */
  lemma Presented(s: Shared, events: History<Event>, y: nat, token: nat, purpose: Purpose, t: int, now: int) returns (later: History<Event>)
    requires Ordered(events, now) && Clock(events, now) <= t
    requires var s1 := Continue(s, events); y !in s1.open && Consume(s1.db, token, purpose, t).Accepted?
    ensures Ordered(later, now) && Clock(later, now) == t
    ensures var s1, s' := Continue(s, events), Continue(s, later);
            && s'.open == s1.open && s'.accepted == Then(s1.accepted, token)
            && s'.db == Spent(s1.db, Reading(s1, Checked(token, purpose, t), t))
  {
    var s1 := Continue(s, events);
    var h, s2 := Add(s, events, Check(y, token, purpose, t), now);
    assert s2.db == s1.db && s2.open[y] == Checked(token, purpose, t) && s2.open - {y} == s1.open;
    AcceptedIsWritable(s1.db, token, purpose, t, {});
    later := ReadAndSpend(s, h, y, t, now);
  }

  /** A user can move to a new address and leave its own to others. */
  lemma MovesAway(s: Shared, y: nat, user: int, now: int) returns (later: History<Event>)
    requires SharedInv(s) && user in s.db.users
    ensures Ordered(later, now)
    ensures var s' := Continue(s, later);
            && s'.open == s.open - {y} && s'.accepted == Then(s.accepted, s.db.next)
            && s'.db.users.Keys == s.db.users.Keys
            && !EmailTaken(s.db, s'.db.users[user].email)
            && (forall v :: v in s.db.users && v != user ==> s'.db.users[v] == s.db.users[v])
            && SameOwners(s.db.rows, s'.db.rows)
  {
    var email := FreshAddress(s);
    var t := CooledLater(s.db, user, EmailChange, now);
    var token := s.db.next;
    var h1 := AsksForAddress(s, y, user, email, t, now);
    assert Consume(Continue(s, h1).db, token, EmailChange, t).Accepted?;
    later := Presented(s, h1, y, token, EmailChange, t, now);
  }

  // ---------------------------------------------------------------- when a spent token stays spent

  /** A presentation of the token that has passed its check. */
  predicate Uses(t: Txn, token: nat) { (t.Checked? || t.Spending?) && t.token == token }

  ghost predicate NonePresented(s: Shared, token: nat) {
    forall x :: x in s.open ==> !Uses(s.open[x], token)
  }

  ghost predicate SameAfter(s: Shared, later: History<Event>, token: nat) {
    Acceptances(Continue(s, later).accepted, token) == Acceptances(s.accepted, token)
  }

  /** Whatever happens from `now` on, the token is not accepted again. */
  ghost predicate NeverAgain(s: Shared, token: nat, now: int) {
    forall later :: Ordered(later, now) ==> SameAfter(s, later, token)
  }

  ghost predicate Dead(s: Shared, token: nat) {
    SharedInv(s) && token in s.db.rows && !IsLive(s.db.rows[token]) && NonePresented(s, token)
  }

  lemma ActKeepsDead(s: Shared, e: Event, token: nat)
    requires Dead(s, token)
    ensures Dead(Act(s, e), token) && Acceptances(Act(s, e).accepted, token) == Acceptances(s.accepted, token)
  {
    ActKeepsInv(s, e);
    assert RowSpan(s, token);
    if e.Commit? { assert TxnOk(s, e.txn); }
  }

  lemma {:induction false} DeadStays(s: Shared, later: History<Event>, token: nat)
    requires Dead(s, token)
    ensures Dead(Continue(s, later), token) && SameAfter(s, later, token)
  {
    if later.Then? {
      DeadStays(s, later.before, token);
      ActKeepsDead(Continue(s, later.before), later.latest, token);
    }
  }

  /** A presentation that has passed its check can still be accepted: whoever has the address that it
      asks for can move away first. */
  lemma CheckedIsAccepted(s: Shared, x: nat, token: nat, now: int) returns (later: History<Event>)
    requires SharedInv(s) && AddressInv(s) && token in s.db.rows && x in s.open && Uses(s.open[x], token)
    ensures Ordered(later, now) && Acceptances(Continue(s, later).accepted, token) == Acceptances(s.accepted, token) + 1
  {
    var r := s.db.rows[token];
    assert RowSpan(s, token) && RowSpan(s, s.db.next);
    var moved := Start;
    if u :| u in s.db.users && u != r.user && s.db.users[u].email == r.newEmail {
      moved := MovesAway(s, x + 1, u, now);
      forall v | v in s.db.users && v != r.user ensures Continue(s, moved).db.users[v].email != r.newEmail {
        assert AddressesDiffer(s, u, v);
      }
    }
    var s1 := Continue(s, moved);
    assert !WriteFails(s1.db, token, s.open[x].purpose);
    var h2, s2 := Add(s, moved, Read(x, Clock(moved, now)), now);
    assert s2.open[x].Spending? && s2.db == s1.db;
    var s3;
    later, s3 := Add(s, h2, Commit(x, 0), now);
    assert s3.accepted == Then(s1.accepted, token);
  }

  /** A token that is used or revoked is never accepted again, in any continuation, if and only if no
      presentation of it is under way that has passed its check. */
  lemma SpentIsExact(cooldown: nat, events: History<Event>, token: nat, now: int)
    requires var db := Interleave(cooldown, events).db; token in db.rows && !IsLive(db.rows[token])
    ensures var s := Interleave(cooldown, events); NeverAgain(s, token, now) <==> NonePresented(s, token)
  {
    var s := Interleave(cooldown, events);
    InterleaveKeepsInv(cooldown, events);
    InterleaveKeepsAddresses(cooldown, events);
    if NonePresented(s, token) {
      forall later ensures SameAfter(s, later, token) {
        DeadStays(s, later, token);
      }
    } else {
      var x :| x in s.open && Uses(s.open[x], token);
      var later := CheckedIsAccepted(s, x, token, now);
      assert !SameAfter(s, later, token);
    }
  }

  lemma ActUses(s: Shared, e: Event, token: nat)
    requires SharedInv(s)
    requires Acceptances(s.accepted, token) >= 1 <==> token in s.db.rows && s.db.rows[token].used.Some?
    ensures Acceptances(Act(s, e).accepted, token) >= 1 <==> token in Act(s, e).db.rows && Act(s, e).db.rows[token].used.Some?
  {
    assert RowSpan(s, s.db.next);
    if e.Commit? { assert TxnOk(s, e.txn); }
  }

  /** Also when requests overlap, the tokens marked used are exactly those that were accepted. */
  lemma {:induction false} UsedAreAccepted(cooldown: nat, events: History<Event>, token: nat)
    ensures var s := Interleave(cooldown, events);
            Acceptances(s.accepted, token) >= 1 <==> token in s.db.rows && s.db.rows[token].used.Some?
  {
    if events.Then? {
      UsedAreAccepted(cooldown, events.before, token);
      InterleaveKeepsInv(cooldown, events.before);
      ActUses(Interleave(cooldown, events.before), events.latest, token);
    }
  }

  // ---------------------------------------------------------------- when mails stay apart

  /** Mails for a user and purpose whose row is not in `known` come at `due` or later. */
  ghost predicate MailsLate(known: map<nat, Row>, rows: map<nat, Row>, user: int, purpose: Purpose, due: int) {
    forall i :: i in rows && i !in known && For(rows[i], user, purpose) ==> due <= rows[i].lastSentAt
  }

  ghost predicate LateAfter(s: Shared, later: History<Event>, user: int, purpose: Purpose, due: int) {
    MailsLate(s.db.rows, Continue(s, later).db.rows, user, purpose, due)
  }

  /** Whatever happens from `now` on, the mails that follow row k are at least the cooldown after it. */
  ghost predicate StaysApart(s: Shared, k: nat, now: int)
    requires k in s.db.rows
  {
    var r := s.db.rows[k];
    forall later :: Ordered(later, now) ==> LateAfter(s, later, r.user, r.purpose, r.lastSentAt + s.db.cooldown)
  }

  /** A request under way that has passed its check, and has mailed or can still mail before `due`. */
  predicate Crowds(s: Shared, x: nat, user: int, purpose: Purpose, due: int, now: int) {
    && x in s.open
    && ((s.open[x].Asked? && now < due) || (s.open[x].Issuing? && s.open[x].at < due))
    && s.open[x].user == user && s.open[x].purpose == purpose
  }

  predicate NoneCrowds(s: Shared, user: int, purpose: Purpose, due: int, now: int) {
    forall x :: x in s.open ==> !Crowds(s, x, user, purpose, due, now)
  }

  predicate MailedSince(db: Db, user: int, purpose: Purpose, mail: int) {
    var latest := Latest(db.rows, db.next, user, purpose);
    latest.Some? && latest.value in db.rows && mail <= db.rows[latest.value].lastSentAt
  }

  /** A request can pass its check before `due`: the token of the request that began last, which is the
      one that the check looks at, was mailed before `mail`. */
  predicate Reopens(db: Db, user: int, purpose: Purpose, mail: int, now: int) {
    && now < mail + db.cooldown && !MailedSince(db, user, purpose, mail)
    && user in db.users && (purpose.EmailVerification? ==> !db.users[user].verified)
  }

  ghost predicate Calm(known: map<nat, Row>, s: Shared, user: int, purpose: Purpose, mail: int, now: int) {
    && SharedInv(s) && user in s.db.users
    && MailsLate(known, s.db.rows, user, purpose, mail + s.db.cooldown)
    && NoneCrowds(s, user, purpose, mail + s.db.cooldown, now)
    && !Reopens(s.db, user, purpose, mail, now)
  }

  /** Rows stay what they are, but for use and revocation, and only commits and registrations add one. */
  lemma RowsStay(s: Shared, e: Event, i: nat)
    requires SharedInv(s)
    ensures var rows, rows' := s.db.rows, Act(s, e).db.rows;
            && (i in rows ==> i in rows' && rows'[i] == rows[i].(used := rows'[i].used, revoked := rows'[i].revoked))
            && (i in rows' && i !in rows ==>
                  || (e.Joins? && rows'[i].user !in s.db.users)
                  || (e.Commit? && e.txn in s.open && s.open[e.txn].Issuing? && i == s.open[e.txn].row
                      && For(rows'[i], s.open[e.txn].user, s.open[e.txn].purpose) && rows'[i].lastSentAt == s.open[e.txn].at))
  {
    assert RowSpan(s, i) && RowSpan(s, s.db.next);
    if e.Commit? { assert TxnOk(s, e.txn); }
  }

  /** Once a mail as late as `mail` is the one that the check looks at, this stays so. */
  lemma SinceStays(s: Shared, e: Event, user: int, purpose: Purpose, mail: int)
    requires SharedInv(s) && user in s.db.users && MailedSince(s.db, user, purpose, mail)
    requires e.Commit? && e.txn in s.open && s.open[e.txn].Issuing? && s.open[e.txn].user == user && s.open[e.txn].purpose == purpose
             ==> mail <= s.open[e.txn].at
    ensures MailedSince(Act(s, e).db, user, purpose, mail)
  {
    var s' := Act(s, e);
    ActKeepsInv(s, e);
    var l := Latest(s.db.rows, s.db.next, user, purpose).value;
    LatestIsLast(s.db.rows, s.db.next, user, purpose);
    LatestIsLast(s'.db.rows, s'.db.next, user, purpose);
    RowsStay(s, e, l);
    assert RowSpan(s', l);
    var l' := Latest(s'.db.rows, s'.db.next, user, purpose).value;
    RowsStay(s, e, l');
    assert RowSpan(s, l');
  }

  lemma StepStaysClosed(known: map<nat, Row>, s: Shared, e: Event, user: int, purpose: Purpose, mail: int, now: int)
    requires Calm(known, s, user, purpose, mail, now) && Cooled(purpose) && NotBefore(e, now)
    ensures !Reopens(Act(s, e).db, user, purpose, mail, Tick(e, now))
  {
    if Tick(e, now) < mail + s.db.cooldown && MailedSince(s.db, user, purpose, mail) {
      if e.Commit? { assert e.txn in s.open ==> !Crowds(s, e.txn, user, purpose, mail + s.db.cooldown, now); }
      SinceStays(s, e, user, purpose, mail);
    }
  }

  lemma StepStaysUncrowded(known: map<nat, Row>, s: Shared, e: Event, user: int, purpose: Purpose, mail: int, now: int)
    requires Calm(known, s, user, purpose, mail, now) && Cooled(purpose) && NotBefore(e, now)
    ensures NoneCrowds(Act(s, e), user, purpose, mail + s.db.cooldown, Tick(e, now))
  {
    var s', due := Act(s, e), mail + s.db.cooldown;
    forall x | x in s'.open ensures !Crowds(s', x, user, purpose, due, Tick(e, now)) {
      assert x in s.open ==> !Crowds(s, x, user, purpose, due, now);
    }
  }

  lemma StepStaysCalm(known: map<nat, Row>, s: Shared, e: Event, user: int, purpose: Purpose, mail: int, now: int)
    requires Calm(known, s, user, purpose, mail, now) && Cooled(purpose) && NotBefore(e, now)
    ensures Calm(known, Act(s, e), user, purpose, mail, Tick(e, now))
  {
    var s', due := Act(s, e), mail + s.db.cooldown;
    ActKeepsInv(s, e);
    StepStaysClosed(known, s, e, user, purpose, mail, now);
    StepStaysUncrowded(known, s, e, user, purpose, mail, now);
    forall i | i in s'.db.rows && i !in known && For(s'.db.rows[i], user, purpose) ensures due <= s'.db.rows[i].lastSentAt {
      RowsStay(s, e, i);
    }
  }

  lemma {:induction false} CalmStays(s: Shared, later: History<Event>, user: int, purpose: Purpose, mail: int, now: int)
    requires Calm(s.db.rows, s, user, purpose, mail, now) && Cooled(purpose) && Ordered(later, now)
    ensures Continue(s, later).db.cooldown == s.db.cooldown
    ensures Calm(s.db.rows, Continue(s, later), user, purpose, mail, Clock(later, now))
  {
    if later.Then? {
      CalmStays(s, later.before, user, purpose, mail, now);
      StepStaysCalm(s.db.rows, Continue(s, later.before), later.latest, user, purpose, mail, Clock(later.before, now));
    }
  }

  /** The request that crowds mails too early. */
  lemma CrowdingMails(s: Shared, x: nat, user: int, purpose: Purpose, due: int, now: int) returns (later: History<Event>)
    requires SharedInv(s) && Crowds(s, x, user, purpose, due, now)
    ensures Ordered(later, now) && !LateAfter(s, later, user, purpose, due)
  {
    assert TxnOk(s, x) && Continue(s, Start) == s;
    var h, s1 := Start, s;
    if s.open[x].Asked? {
      h, s1 := Add(s, Start, Read(x, now), now);
    }
    assert s1.open[x].Issuing? && s1.open[x].at < due && s1.db == s.db;
    var s2;
    later, s2 := Add(s, h, Commit(x, 0), now);
    assert s1.open[x].row in s2.db.rows && For(s2.db.rows[s1.open[x].row], user, purpose);
  }

  /** A request that can pass its check too early mails too early. */
  lemma ReopenedMails(s: Shared, user: int, purpose: Purpose, mail: int, now: int) returns (later: History<Event>)
    requires SharedInv(s) && Cooled(purpose) && Reopens(s.db, user, purpose, mail, now)
    ensures Ordered(later, now) && !LateAfter(s, later, user, purpose, mail + s.db.cooldown)
  {
    var email := FreshAddress(s);
    var latest := Latest(s.db.rows, s.db.next, user, purpose);
    LatestIsLast(s.db.rows, s.db.next, user, purpose);
    var t := CooledLater(s.db, user, purpose, now);
    assert RowSpan(s, s.db.next) && Continue(s, Start) == s;
    var h1, s1 := Add(s, Start, Abort(0), now);
    assert MayAsk(s1, user, purpose, email, t);
    var h2 := BeginAndAsk(s, h1, 0, user, purpose, email, t, now);
    later := ReadAndIssue(s, h2, 0, t, 0, now);
    var s5 := Continue(s, later);
    assert s.db.next in s5.db.rows && For(s5.db.rows[s.db.next], user, purpose) && s5.db.rows[s.db.next].lastSentAt == t;
  }

  /** From now on all mails for a user and a cooled purpose are at least the cooldown after that of row k, in
      every continuation, if and only if no request for one that has passed its check has mailed, or
      can still mail, before, and the token that the check looks at was not mailed before that of row k
      while the cooldown lasts. */
  lemma SpacingIsExact(cooldown: nat, events: History<Event>, k: nat, now: int)
    requires var db := Interleave(cooldown, events).db; k in db.rows && Cooled(db.rows[k].purpose)
    ensures var s := Interleave(cooldown, events);
            var r := s.db.rows[k];
            StaysApart(s, k, now) <==>
              && NoneCrowds(s, r.user, r.purpose, r.lastSentAt + cooldown, now)
              && !Reopens(s.db, r.user, r.purpose, r.lastSentAt, now)
  {
    var s := Interleave(cooldown, events);
    var r := s.db.rows[k];
    var due := r.lastSentAt + cooldown;
    InterleaveKeepsInv(cooldown, events);
    CooldownStays(cooldown, events);
    assert RowSpan(s, k);
    if x :| x in s.open && Crowds(s, x, r.user, r.purpose, due, now) {
      var later := CrowdingMails(s, x, r.user, r.purpose, due, now);
      assert !LateAfter(s, later, r.user, r.purpose, due);
    } else if Reopens(s.db, r.user, r.purpose, r.lastSentAt, now) {
      var later := ReopenedMails(s, r.user, r.purpose, r.lastSentAt, now);
      assert !LateAfter(s, later, r.user, r.purpose, due);
    } else {
      forall later | Ordered(later, now) ensures LateAfter(s, later, r.user, r.purpose, due) {
        CalmStays(s, later, r.user, r.purpose, r.lastSentAt, now);
      }
    }
  }

  lemma {:induction false} CooldownStays(cooldown: nat, events: History<Event>)
    ensures Interleave(cooldown, events).db.cooldown == cooldown
  {
    if events.Then? {
      CooldownStays(cooldown, events.before);
    }
  }

  /** The expiry of token k, fixed by the event that made its row. */
  function ExpiryOf(cooldown: nat, events: History<Event>, k: nat): Option<int> {
    match events
    case Start => None
    case Then(before, e) =>
      var s := Interleave(cooldown, before);
      if e.Joins? && s.db.next == k && k in Act(s, e).db.rows then Some(e.m.expiresAt)
      else if e.Commit? && e.txn in s.open && s.open[e.txn].Issuing? && s.open[e.txn].row == k then Some(e.expiresAt)
      else ExpiryOf(cooldown, before, k)
  }

  /** A presentation that has passed its check is for the token's purpose, and was so before its expiry. */
  ghost predicate InTime(cooldown: nat, events: History<Event>, x: nat) {
    var s := Interleave(cooldown, events);
    x in s.open && (s.open[x].Checked? || s.open[x].Spending?) ==>
      var expiry := ExpiryOf(cooldown, events, s.open[x].token);
      && s.open[x].token in s.db.rows && s.db.rows[s.open[x].token].purpose == s.open[x].purpose
      && expiry.Some? && s.open[x].at < expiry.value
  }

  lemma {:induction false} ExpiryIsFixed(cooldown: nat, events: History<Event>, k: nat)
    ensures var s := Interleave(cooldown, events);
            k in s.db.rows ==> ExpiryOf(cooldown, events, k) == Some(s.db.rows[k].expiresAt)
  {
    if events.Then? {
      var s := Interleave(cooldown, events.before);
      ExpiryIsFixed(cooldown, events.before, k);
      InterleaveKeepsInv(cooldown, events.before);
      RowsStay(s, events.latest, k);
      assert RowSpan(s, s.db.next) && RowSpan(s, k);
      if events.latest.Commit? { assert TxnOk(s, events.latest.txn); }
    }
  }

  ghost predicate CheckedInTime(s: Shared, x: nat) {
    x in s.open && (s.open[x].Checked? || s.open[x].Spending?) ==>
      var t := s.open[x];
      t.token in s.db.rows && s.db.rows[t.token].purpose == t.purpose && t.at < s.db.rows[t.token].expiresAt
  }

  lemma ActKeepsInTime(s: Shared, e: Event, x: nat)
    requires SharedInv(s) && CheckedInTime(s, x)
    ensures CheckedInTime(Act(s, e), x)
  {
    var s' := Act(s, e);
    if x in s'.open && (s'.open[x].Checked? || s'.open[x].Spending?) {
      RowsStay(s, e, s'.open[x].token);
    }
  }

  lemma {:induction false} AllInTime(cooldown: nat, events: History<Event>, x: nat)
    ensures CheckedInTime(Interleave(cooldown, events), x)
  {
    if events.Then? {
      AllInTime(cooldown, events.before, x);
      InterleaveKeepsInv(cooldown, events.before);
      ActKeepsInTime(Interleave(cooldown, events.before), events.latest, x);
    }
  }

  /** Also when requests overlap, whatever passes its check, and so whatever is accepted, does so before
      the expiry that was fixed when the token was issued. */
  lemma ChecksAreInTime(cooldown: nat, events: History<Event>, x: nat)
    ensures InTime(cooldown, events, x)
  {
    var s := Interleave(cooldown, events);
    AllInTime(cooldown, events, x);
    if x in s.open && (s.open[x].Checked? || s.open[x].Spending?) {
      ExpiryIsFixed(cooldown, events, s.open[x].token);
    }
  }

  // ---------------------------------------------------------------- the table, updated in place

  class AccountTokenStore {
    var rows: map<nat, Row>
    var next: nat
    var users: map<int, User>
    const cooldown: nat

    constructor (db: Db)
      ensures Tables() == db
    {
      rows, next, users, cooldown := db.rows, db.next, db.users, db.cooldown;
    }

    function Tables(): Db
      reads this
    {
      Db(rows, next, users, cooldown)
    }

    method RevokeForUser(user: int, purpose: Purpose, now: int)
      modifies this`rows
      ensures rows == RevokedRows(old(rows), user, purpose, now)
    {
      var remaining := set k | k in rows && For(rows[k], user, purpose) && IsLive(rows[k]);
      while remaining != {}
        invariant rows.Keys == old(rows).Keys && remaining <= rows.Keys
        invariant forall k :: k in remaining ==>
                    rows[k] == old(rows)[k] && For(rows[k], user, purpose) && IsLive(rows[k])
        invariant forall k :: k in rows && k !in remaining ==> rows[k] == RevokedRows(old(rows), user, purpose, now)[k]
      {
        var k :| k in remaining;
        rows := rows[k := rows[k].(revoked := Some(now))];
        remaining := remaining - {k};
      }
    }

    method IssueToken(user: int, purpose: Purpose, now: int, expiresAt: int, newEmail: int)
      modifies this
      ensures Tables() == Issue(old(Tables()), user, purpose, now, expiresAt, newEmail)
    {
      RevokeForUser(user, purpose, now);
      rows := rows[next := Row(user, purpose, expiresAt, now, newEmail, None, None)];
      next := next + 1;
    }

    method AskPasswordReset(user: int, m: Moment) returns (o: Outcome)
      modifies this
      ensures o == RequestPasswordReset(old(Tables()), user, m)
      ensures Tables() == Settled(old(Tables()), o)
    {
      if user !in users {
        return Accepted(Tables(), false);
      }
      if CoolingDown(Tables(), user, PasswordReset, m.check) {
        return TooSoon;
      }
      IssueToken(user, PasswordReset, m.issue, m.expiresAt, users[user].email);
      o := Accepted(Tables(), true);
    }

    method ConfirmPasswordReset(token: nat, now: int) returns (ok: bool)
      modifies this
      ensures ok == Consume(old(Tables()), token, PasswordReset, now).Accepted?
      ensures Tables() == Settled(old(Tables()), Consume(old(Tables()), token, PasswordReset, now))
    {
      if !Valid(Tables(), token, PasswordReset, now) || rows[token].user !in users {
        return false;
      }
      rows := rows[token := rows[token].(used := Some(now))];
      RevokeForUser(rows[token].user, PasswordReset, now);
      ok := true;
    }

    method ConfirmEmailChange(token: nat, now: int) returns (ok: bool)
      modifies this
      ensures ok == Consume(old(Tables()), token, EmailChange, now).Accepted?
      ensures Tables() == Settled(old(Tables()), Consume(old(Tables()), token, EmailChange, now))
    {
      if !Valid(Tables(), token, EmailChange, now) || rows[token].user !in users {
        return false;
      }
      var user, newEmail := rows[token].user, rows[token].newEmail;
      if users[user].pendingEmail != Some(newEmail) || EmailTaken(Tables(), newEmail) {
        return false;
      }
      users := users[user := users[user].(email := newEmail, pendingEmail := None, verified := true)];
      rows := rows[token := rows[token].(used := Some(now))];
      RevokeForUser(user, EmailChange, now);
      ok := true;
    }
  }
}
