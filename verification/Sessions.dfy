/** Refresh-token rotation and sessions on the server.  The tables are maps keyed
    by the token hash; hashing and signing are taken to be injective, so a token
    stands for its hash and its `jti`. */
module Sessions {
  import opened Wrappers
  import opened SlidingWindow

  datatype Reason = Rotation | LoggedOut | UserRevoked | UserRevokedAll | MfaReset
  datatype Revocation = Revocation(at: int, reason: Reason)
  datatype Session = Session(user: int, expiresAt: int, revoked: Option<Revocation>)

  /** The claims of a refresh token. */
  datatype Token = Token(id: nat, user: int, expiresAt: int)

  /** `issued` is not a table: it says which tokens carry the server's signature.
      A token signed before sessions were stored has no row in `sessions`. */
  datatype Db = Db(
    users: set<int>,
    sessions: map<nat, Session>,
    blacklist: map<nat, Reason>,
    issued: map<nat, Token>,
    nextToken: nat,
    lifetime: nat)

  datatype Outcome = Rejected | Accepted(db: Db, token: Option<Token>)

  // ---------------------------------------------------------------- the handlers

  /** `decode_refresh_token`: signed by us and not past its expiry. */
  predicate Decodes(db: Db, t: Token, now: int) {
    t.id in db.issued && db.issued[t.id] == t && now < t.expiresAt
  }

  function Marked(sessions: map<nat, Session>, ids: set<nat>, r: Revocation): map<nat, Session> {
    map k | k in sessions :: if k in ids then sessions[k].(revoked := Some(r)) else sessions[k]
  }

  function Blacklisted(blacklist: map<nat, Reason>, ids: set<nat>, reason: Reason): map<nat, Reason> {
    map k | k in blacklist.Keys + ids :: if k in blacklist then blacklist[k] else reason
  }

  /** `_token_response`: a new token with its session row. */
  function Issue(db: Db, user: int, now: int): (Db, Token) {
    var t := Token(db.nextToken, user, now + db.lifetime);
    (db.(sessions := db.sessions[t.id := Session(user, t.expiresAt, None)],
         issued := db.issued[t.id := t],
         nextToken := db.nextToken + 1),
     t)
  }

  function SignIn(db: Db, user: int, now: int): Outcome {
    if user !in db.users then Rejected
    else var (db', t) := Issue(db, user, now); Accepted(db', Some(t))
  }

  predicate SessionUsable(s: Session, user: int, now: int) {
    s.user == user && s.revoked.None? && now < s.expiresAt
  }

  /** `_revoke_refresh_token`. */
  function RevokeToken(db: Db, t: Token, now: int, reason: Reason, ignoreExisting: bool): Outcome {
    if t.id in db.blacklist then
      if ignoreExisting && t.user in db.users then Accepted(db, None) else Rejected
    else if t.user !in db.users then Rejected
    else if t.id in db.sessions && !SessionUsable(db.sessions[t.id], t.user, now) then Rejected
    else Accepted(Retired(db, {t.id}, Revocation(now, reason)), None)
  }

  /** Session rows revoked and their tokens blacklisted. */
  function Retired(db: Db, ids: set<nat>, r: Revocation): Db {
    db.(sessions := Marked(db.sessions, ids, r), blacklist := Blacklisted(db.blacklist, ids, r.reason))
  }

  /** `refresh_auth_tokens`. */
  function Refresh(db: Db, t: Token, now: int): Outcome {
    if !Decodes(db, t, now) then Rejected
    else
      var revoked := RevokeToken(db, t, now, Rotation, false);
      if revoked.Rejected? then Rejected
      else var (db', t') := Issue(revoked.db, t.user, now); Accepted(db', Some(t'))
  }

  /** `logout_user`. */
  function Logout(db: Db, token: Option<Token>, currentUser: int, now: int): Outcome {
    if token.None? then Accepted(db, None)
    else if !Decodes(db, token.value, now) || token.value.user != currentUser then Rejected
    else RevokeToken(db, token.value, now, LoggedOut, true)
  }

  function Live(db: Db, user: int, now: int): set<nat> {
    set k | k in db.sessions && SessionUsable(db.sessions[k], user, now)
  }

  /** `revoke_session`. */
  function RevokeSession(db: Db, user: int, session: nat, now: int): Outcome {
    if session !in Live(db, user, now) then Rejected
    else Accepted(Retired(db, {session}, Revocation(now, UserRevoked)), None)
  }

  /** `revoke_all_sessions`. */
  function RevokeAll(db: Db, user: int, now: int): Outcome {
    Accepted(Retired(db, Live(db, user, now), Revocation(now, UserRevokedAll)), None)
  }

  /** The session part of `confirm_mfa_reset`: rows are revoked, tokens are not blacklisted. */
  function ResetMfa(db: Db, user: int, now: int): Outcome {
    Accepted(db.(sessions := Marked(db.sessions, Live(db, user, now), Revocation(now, MfaReset))), None)
  }

  // ---------------------------------------------------------------- runs

  datatype Request =
    | SignsIn(user: int, at: int)
    | Refreshes(t: Token, at: int)
    | LogsOut(token: Option<Token>, user: int, at: int)
    | RevokesOne(user: int, session: nat, at: int)
    | RevokesAll(user: int, at: int)
    | ResetsMfa(user: int, at: int)

  function Handle(db: Db, r: Request): Outcome {
    match r
    case SignsIn(user, now) => SignIn(db, user, now)
    case Refreshes(t, now) => Refresh(db, t, now)
    case LogsOut(token, user, now) => Logout(db, token, user, now)
    case RevokesOne(user, session, now) => RevokeSession(db, user, session, now)
    case RevokesAll(user, now) => RevokeAll(db, user, now)
    case ResetsMfa(user, now) => ResetMfa(db, user, now)
  }

  /** A rejected request is rolled back. */
  function Settled(db: Db, o: Outcome): Db {
    if o.Accepted? then o.db else db
  }

  function Run(db: Db, requests: History<Request>): Db {
    match requests
    case Start => db
    case Then(before, r) => Settled(Run(db, before), Handle(Run(db, before), r))
  }

  /** What every state keeps.  Tokens and rows agree, and a blacklisted token has no unrevoked row. */
  ghost predicate RowOk(db: Db, k: nat) {
    && (k in db.sessions ==>
          && k in db.issued
          && db.issued[k].user == db.sessions[k].user
          && db.issued[k].expiresAt == db.sessions[k].expiresAt)
    && (k in db.issued ==> k < db.nextToken && db.issued[k].id == k)
    && (k in db.blacklist ==> k < db.nextToken && (k in db.sessions ==> db.sessions[k].revoked.Some?))
  }

  ghost predicate Inv(db: Db) {
    db.lifetime >= 1 && forall k :: RowOk(db, k)
  }

  lemma HandleKeepsInv(db: Db, r: Request)
    requires Inv(db)
    ensures Inv(Settled(db, Handle(db, r)))
  {
    var db' := Settled(db, Handle(db, r));
    forall k ensures RowOk(db', k) {
      assert RowOk(db, k);
      assert RowOk(db, db.nextToken);
    }
  }

  lemma {:induction false} RunKeepsInv(db: Db, requests: History<Request>)
    requires Inv(db)
    ensures Inv(Run(db, requests))
  {
    if requests.Then? {
      RunKeepsInv(db, requests.before);
      HandleKeepsInv(Run(db, requests.before), requests.latest);
    }
  }

  // ---------------------------------------------------------------- acceptance and effect of one refresh

  /** A refresh is granted exactly to an unspent token of an existing user whose session, if it
      has one, is live; the old token is spent and the new one is granted in turn. */
  lemma RefreshRotates(db: Db, t: Token, now: int, later: int)
    requires Inv(db)
    ensures Refresh(db, t, now).Accepted? <==>
              && Decodes(db, t, now) && t.user in db.users && t.id !in db.blacklist
              && (t.id in db.sessions ==> t.id in Live(db, t.user, now))
    ensures var o := Refresh(db, t, now);
            o.Accepted? ==>
              && o.token.Some?
              && o.token.value.user == t.user && o.token.value.id !in db.issued
              && Refresh(o.db, t, later).Rejected?
              && (Refresh(o.db, o.token.value, later).Accepted? <==> later < now + db.lifetime)
  {
    assert RowOk(db, t.id) && RowOk(db, db.nextToken);
  }

  /** What the revoking handlers leave in the tables, read at any later time: none of the user's
      sessions, or all but exactly the one named; nobody else's are touched.  Only the MFA reset
      leaves the blacklist alone. */
  lemma RevocationsAreExact(db: Db, user: int, session: nat, now: int, other: int, later: int)
    requires now <= later
    ensures var all, reset, one := RevokeAll(db, user, now).db, ResetMfa(db, user, now).db, RevokeSession(db, user, session, now);
            && Live(all, user, later) == {} && Live(reset, user, later) == {}
            && (other != user ==> Live(all, other, later) == Live(db, other, later) == Live(reset, other, later))
            && all.blacklist.Keys == db.blacklist.Keys + Live(db, user, now) && reset.blacklist == db.blacklist
            && (one.Accepted? <==> session in Live(db, user, now))
            && (one.Accepted? ==>
                  && session in one.db.blacklist
                  && Live(one.db, other, later) == Live(db, other, later) - {session})
  {
  }

  /** A logout with a token is granted exactly to the user whose genuine, unexpired token it is, while
      its session, if it has one, is live, or once it is blacklisted already.  It ends the session of
      that token and no other, of no user; done twice it changes nothing more. */
  lemma LogoutIsExact(db: Db, t: Token, user: int, now: int, other: int, later: int)
    requires Inv(db) && now <= later
    ensures var o := Logout(db, Some(t), user, now);
            o.Accepted? <==>
              && t.id in db.issued && db.issued[t.id] == t && now < t.expiresAt
              && t.user == user && user in db.users
              && (t.id in db.blacklist || t.id !in db.sessions || t.id in Live(db, user, now))
    ensures var o := Logout(db, Some(t), user, now);
            o.Accepted? ==>
              && o.token.None?
              && t.id in o.db.blacklist && Refresh(o.db, t, later).Rejected?
              && (t.id in db.blacklist ==> o.db == db)
              && Live(o.db, other, later) == Live(db, other, later) - {t.id}
              && (other != user ==> Live(o.db, other, later) == Live(db, other, later))
              && Logout(o.db, Some(t), user, now) == Accepted(o.db, None)
    ensures Logout(db, None, user, now) == Accepted(db, None)
  {
    assert RowOk(db, t.id);
  }

  // ---------------------------------------------------------------- whole runs

  lemma HandleMonotone(db: Db, r: Request)
    requires Inv(db)
    ensures var db' := Settled(db, Handle(db, r));
            && (forall k :: k in db.blacklist ==> k in db'.blacklist && db'.blacklist[k] == db.blacklist[k])
            && (forall k :: k in db.sessions && db.sessions[k].revoked.Some? ==>
                  k in db'.sessions && db'.sessions[k] == db.sessions[k])
            && (forall k :: k in db.issued ==> k in db'.issued && db'.issued[k] == db.issued[k])
  {
    assert RowOk(db, db.nextToken);
    forall k | k in db.sessions ensures k != db.nextToken { assert RowOk(db, k); }
    forall k | k in db.blacklist ensures k != db.nextToken { assert RowOk(db, k); }
  }

  /** What can no longer be exchanged at some time cannot after any request either. */
  lemma AcceptanceFades(db: Db, r: Request, t: Token, at: int)
    requires Inv(db) && t.id < db.nextToken && Refresh(db, t, at).Rejected?
    ensures Refresh(Settled(db, Handle(db, r)), t, at).Rejected?
  {
    HandleMonotone(db, r);
    assert RowOk(db, t.id);
  }

  /** A revoked session is never revived, nor its record altered, and a blacklisted token stays so. */
  lemma {:induction false} RevokedForever(db: Db, requests: History<Request>, k: nat)
    requires Inv(db)
    ensures k in db.sessions && db.sessions[k].revoked.Some? ==>
              k in Run(db, requests).sessions && Run(db, requests).sessions[k] == db.sessions[k]
    ensures k in db.blacklist ==>
              k in Run(db, requests).blacklist && Run(db, requests).blacklist[k] == db.blacklist[k]
  {
    if requests.Then? {
      RevokedForever(db, requests.before, k);
      RunKeepsInv(db, requests.before);
      HandleMonotone(Run(db, requests.before), requests.latest);
    }
  }

  /** How often the token was exchanged for a new one. */
  function Exchanges(db: Db, requests: History<Request>, token: nat): nat {
    match requests
    case Start => 0
    case Then(before, r) =>
      Exchanges(db, before, token) +
      if r.Refreshes? && r.t.id == token && Handle(Run(db, before), r).Accepted? then 1 else 0
  }

  /** Each refresh token is exchanged at most once, and never once it is blacklisted or its session
      revoked; those exchanged are exactly those blacklisted meanwhile as rotated. */
  lemma {:induction false} ExchangedAtMostOnce(db: Db, requests: History<Request>, token: nat)
    requires Inv(db)
    ensures Exchanges(db, requests, token) <= 1
    ensures Exchanges(db, requests, token) == 1 <==>
              token !in db.blacklist && token in Run(db, requests).blacklist && Run(db, requests).blacklist[token] == Rotation
    ensures token in db.blacklist || (token in db.sessions && db.sessions[token].revoked.Some?)
        ==> Exchanges(db, requests, token) == 0
  {
    if requests.Then? {
      ExchangedAtMostOnce(db, requests.before, token);
      RevokedForever(db, requests.before, token);
      RunKeepsInv(db, requests.before);
      HandleMonotone(Run(db, requests.before), requests.latest);
      RotatedByRefresh(Run(db, requests.before), requests.latest, token);
    }
  }

  lemma RotatedByRefresh(db: Db, r: Request, token: nat)
    ensures var db' := Settled(db, Handle(db, r));
            token !in db.blacklist ==>
              (token in db'.blacklist && db'.blacklist[token] == Rotation <==>
                 r.Refreshes? && r.t.id == token && Handle(db, r).Accepted?)
  {
  }

  // ---------------------------------------------------------------- counting sessions

  function Unrevoked(db: Db, user: int): set<nat> {
    set k | k in db.sessions && db.sessions[k].user == user && db.sessions[k].revoked.None?
  }

  /** Sessions a request opens without retiring another: sign-ins, and the exchange
      of a token that has no session row. */
  function Opened(db: Db, r: Request, user: int): nat {
    if r.SignsIn? && r.user == user && Handle(db, r).Accepted? then 1
    else if r.Refreshes? && r.t.user == user && r.t.id !in db.sessions && Handle(db, r).Accepted? then 1
    else 0
  }

  /** Sessions of the user that a request ends without opening another. */
  function Ended(db: Db, r: Request, user: int): nat {
    match r
    case LogsOut(token, _, _) =>
      if Handle(db, r).Accepted? && token.Some? && token.value.id in Unrevoked(db, user) then 1 else 0
    case RevokesOne(u, _, _) => if u == user && Handle(db, r).Accepted? then 1 else 0
    case RevokesAll(u, now) => if u == user then |Live(db, user, now)| else 0
    case ResetsMfa(u, now) => if u == user then |Live(db, user, now)| else 0
    case _ => 0
  }

  lemma RetireCounts(db: Db, db': Db, ids: set<nat>, r: Revocation, user: int)
    requires db'.sessions == Marked(db.sessions, ids, r)
    ensures Unrevoked(db', user) == Unrevoked(db, user) - ids
    ensures |Unrevoked(db', user)| == |Unrevoked(db, user)| - |Unrevoked(db, user) * ids|
  {
    var u, v := Unrevoked(db, user), Unrevoked(db, user) * ids;
    assert Unrevoked(db', user) == u - ids;
    assert u - ids == u - v && (u - v) + v == u;
  }

  lemma IssueCounts(db: Db, owner: int, now: int, user: int)
    requires Inv(db)
    ensures |Unrevoked(Issue(db, owner, now).0, user)| == |Unrevoked(db, user)| + if owner == user then 1 else 0
  {
    assert RowOk(db, db.nextToken);
    var db' := Issue(db, owner, now).0;
    if owner == user {
      assert Unrevoked(db', user) == Unrevoked(db, user) + {db.nextToken};
    } else {
      assert Unrevoked(db', user) == Unrevoked(db, user);
    }
  }

  lemma LiveAreUnrevoked(db: Db, owner: int, now: int, user: int)
    ensures Unrevoked(db, user) * Live(db, owner, now) == if owner == user then Live(db, user, now) else {}
  {
  }

  lemma RefreshCounts(db: Db, t: Token, now: int, user: int)
    requires Inv(db) && Refresh(db, t, now).Accepted?
    ensures |Unrevoked(Refresh(db, t, now).db, user)|
         == |Unrevoked(db, user)| + if t.id !in db.sessions && t.user == user then 1 else 0
  {
    var retired := Retired(db, {t.id}, Revocation(now, Rotation));
    RetireCounts(db, retired, {t.id}, Revocation(now, Rotation), user);
    assert Inv(retired) by {
      forall k ensures RowOk(retired, k) { assert RowOk(db, k); }
    }
    IssueCounts(retired, t.user, now, user);
    assert RowOk(db, t.id);
    var hit := Unrevoked(db, user) * {t.id};
    assert hit == if t.id in Unrevoked(db, user) then {t.id} else {};
  }

  lemma LogoutCounts(db: Db, token: Token, owner: int, now: int, user: int)
    requires Inv(db) && Logout(db, Some(token), owner, now).Accepted?
    ensures |Unrevoked(Logout(db, Some(token), owner, now).db, user)| + (if token.id in Unrevoked(db, user) then 1 else 0)
         == |Unrevoked(db, user)|
  {
    var id := token.id;
    assert RowOk(db, id);
    if id !in db.blacklist {
      RetireCounts(db, Logout(db, Some(token), owner, now).db, {id}, Revocation(now, LoggedOut), user);
      assert Unrevoked(db, user) * {id} == if id in Unrevoked(db, user) then {id} else {};
    }
  }

  lemma RevokeOneCounts(db: Db, owner: int, session: nat, now: int, user: int)
    requires RevokeSession(db, owner, session, now).Accepted?
    ensures |Unrevoked(RevokeSession(db, owner, session, now).db, user)| + (if owner == user then 1 else 0) == |Unrevoked(db, user)|
  {
    RetireCounts(db, RevokeSession(db, owner, session, now).db, {session}, Revocation(now, UserRevoked), user);
    assert Unrevoked(db, user) * {session} == if owner == user then {session} else {};
  }

  lemma RevokeManyCounts(db: Db, db': Db, owner: int, now: int, r: Revocation, user: int)
    requires db'.sessions == Marked(db.sessions, Live(db, owner, now), r)
    ensures |Unrevoked(db', user)| + (if owner == user then |Live(db, user, now)| else 0) == |Unrevoked(db, user)|
  {
    RetireCounts(db, db', Live(db, owner, now), r, user);
    LiveAreUnrevoked(db, owner, now, user);
  }

  /** The balance of one request: rotations and rejected requests leave the number of
      unrevoked sessions alone, except for the exchange of a token without a row. */
  lemma HandleBalances(db: Db, r: Request, user: int)
    requires Inv(db)
    ensures |Unrevoked(Settled(db, Handle(db, r)), user)| + Ended(db, r, user)
         == |Unrevoked(db, user)| + Opened(db, r, user)
  {
    match r
    case SignsIn(u, now) =>
      IssueCounts(db, u, now, user);
    case Refreshes(t, now) =>
      if Refresh(db, t, now).Accepted? {
        RefreshCounts(db, t, now, user);
      }
    case LogsOut(token, u, now) =>
      if token.Some? && Logout(db, token, u, now).Accepted? {
        LogoutCounts(db, token.value, u, now, user);
      }
    case RevokesOne(u, session, now) =>
      if RevokeSession(db, u, session, now).Accepted? {
        RevokeOneCounts(db, u, session, now, user);
      }
    case RevokesAll(u, now) =>
      RevokeManyCounts(db, RevokeAll(db, u, now).db, u, now, Revocation(now, UserRevokedAll), user);
    case ResetsMfa(u, now) =>
      RevokeManyCounts(db, ResetMfa(db, u, now).db, u, now, Revocation(now, MfaReset), user);
  }

  function TotalOpened(db: Db, requests: History<Request>, user: int): nat {
    if requests.Start? then 0
    else TotalOpened(db, requests.before, user) + Opened(Run(db, requests.before), requests.latest, user)
  }

  function TotalEnded(db: Db, requests: History<Request>, user: int): nat {
    if requests.Start? then 0
    else TotalEnded(db, requests.before, user) + Ended(Run(db, requests.before), requests.latest, user)
  }

  /** Conservation: over any run, the unrevoked sessions of a user plus those ended are
      those there were plus those opened.  Rotations never count. */
  lemma {:induction false} SessionsBalance(db: Db, requests: History<Request>, user: int)
    requires Inv(db)
    ensures |Unrevoked(Run(db, requests), user)| + TotalEnded(db, requests, user)
         == |Unrevoked(db, user)| + TotalOpened(db, requests, user)
  {
    if requests.Then? {
      SessionsBalance(db, requests.before, user);
      RunKeepsInv(db, requests.before);
      HandleBalances(Run(db, requests.before), requests.latest, user);
    }
  }

  function SignIns(db: Db, requests: History<Request>, user: int): nat {
    if requests.Start? then 0
    else SignIns(db, requests.before, user) +
         if requests.latest.SignsIn? && requests.latest.user == user && user in db.users then 1 else 0
  }

  ghost predicate AllHaveRows(db: Db) {
    forall k :: k in db.issued ==> k in db.sessions
  }

  lemma {:induction false} OpenedAreSignIns(db: Db, requests: History<Request>, user: int)
    requires Inv(db) && AllHaveRows(db)
    ensures TotalOpened(db, requests, user) == SignIns(db, requests, user)
    ensures AllHaveRows(Run(db, requests)) && Run(db, requests).users == db.users
  {
    if requests.Then? {
      OpenedAreSignIns(db, requests.before, user);
    }
  }

  /** From a fresh table, a user never has more live sessions than sign-ins. */
  lemma LiveNeverExceedSignIns(users: set<int>, lifetime: nat, requests: History<Request>, user: int, now: int)
    requires lifetime >= 1
    ensures var empty := Db(users, map[], map[], map[], 0, lifetime);
            |Live(Run(empty, requests), user, now)| <= SignIns(empty, requests, user)
  {
    var empty := Db(users, map[], map[], map[], 0, lifetime);
    SessionsBalance(empty, requests, user);
    OpenedAreSignIns(empty, requests, user);
    assert Unrevoked(empty, user) == {};
    var db := Run(empty, requests);
    SubsetSize(Live(db, user, now), Unrevoked(db, user));
  }

  lemma IssueOpens(db: Db, owner: int, now: int, user: int)
    requires db.lifetime >= 1 && db.nextToken !in db.sessions
    ensures |Live(Issue(db, owner, now).0, user, now)| == |Live(db, user, now)| + if owner == user then 1 else 0
  {
    var after := Live(Issue(db, owner, now).0, user, now);
    if owner == user {
      assert after == Live(db, user, now) + {db.nextToken};
    } else {
      assert after == Live(db, user, now);
    }
  }

  lemma RetireOneCounts(db: Db, id: nat, r: Revocation, user: int, now: int)
    ensures |Live(Retired(db, {id}, r), user, now)| + (if id in Live(db, user, now) then 1 else 0) == |Live(db, user, now)|
  {
    var live := Live(db, user, now);
    assert Live(Retired(db, {id}, r), user, now) == live - {id};
    if id !in live {
      assert live - {id} == live;
    }
  }

  /** A refresh keeps the number of live sessions of every user, except that a token
      without a session row opens one. */
  lemma RefreshPreservesLive(db: Db, t: Token, now: int, user: int)
    requires Inv(db) && Refresh(db, t, now).Accepted?
    ensures |Live(Refresh(db, t, now).db, user, now)|
         == |Live(db, user, now)| + if t.id !in db.sessions && t.user == user then 1 else 0
  {
    assert RowOk(db, t.id) && RowOk(db, db.nextToken);
    RetireOneCounts(db, t.id, Revocation(now, Rotation), user, now);
    IssueOpens(Retired(db, {t.id}, Revocation(now, Rotation)), t.user, now, user);
  }

  // ---------------------------------------------------------------- overlapping transactions

  /** A refresh whose checks and writes are apart, and a revocation of all sessions, or an MFA reset,
      whose query and writes are apart: other requests may commit between them.  The unique index on
      blacklisted hashes makes the second of two writers fail. */
  datatype Event =
    | Whole(r: Request)
    | Begin(txn: nat, t: Token, at: int)
    | Commit(txn: nat, at: int)
    | List(txn: nat, user: int, reason: Reason, at: int)
    | Sweep(txn: nat)

  datatype Pending =
    | Refreshing(t: Token, at: int)
    | Revoking(user: int, ids: set<nat>, reason: Reason, at: int)

  datatype Shared = Shared(db: Db, open: map<nat, Pending>, exchanged: History<nat>)

  function Act(s: Shared, e: Event): Shared {
    match e
    case Whole(r) =>
      var o := Handle(s.db, r);
      s.(db := Settled(s.db, o), exchanged := if o.Accepted? && r.Refreshes? then Then(s.exchanged, r.t.id) else s.exchanged)
    case Begin(txn, t, now) =>
      if Refresh(s.db, t, now).Rejected? then s else s.(open := s.open[txn := Refreshing(t, now)])
    case Commit(txn, at) =>
      if txn !in s.open || !s.open[txn].Refreshing? then s
      else
        var Refreshing(t, now) := s.open[txn];
        if t.id in s.db.blacklist then s.(open := s.open - {txn})
        else Shared(Issue(Retired(s.db, {t.id}, Revocation(now, Rotation)), t.user, at).0,
                    s.open - {txn}, Then(s.exchanged, t.id))
    case List(txn, user, reason, now) =>
      if !reason.UserRevokedAll? && !reason.MfaReset? then s
      else s.(open := s.open[txn := Revoking(user, Live(s.db, user, now), reason, now)])
    case Sweep(txn) =>
      if txn !in s.open || !s.open[txn].Revoking? then s
      else s.(db := if SweepFails(s.db, s.open[txn]) then s.db else Swept(s.db, s.open[txn]), open := s.open - {txn})
  }

  /** A hash that was blacklisted since the query rolls the request back. */
  predicate SweepFails(db: Db, p: Pending)
    requires p.Revoking?
  {
    p.reason.UserRevokedAll? && exists k :: k in p.ids && k in db.blacklist
  }

  function Swept(db: Db, p: Pending): Db
    requires p.Revoking?
  {
    var r := Revocation(p.at, p.reason);
    if p.reason.UserRevokedAll? then Retired(db, p.ids, r) else db.(sessions := Marked(db.sessions, p.ids, r))
  }

  function Continue(s: Shared, events: History<Event>): Shared {
    match events
    case Start => s
    case Then(before, e) => Act(Continue(s, before), e)
  }

  function Interleave(db: Db, events: History<Event>): Shared {
    Continue(Shared(db, map[], Start), events)
  }

  function CountOf(h: History<nat>, x: nat): nat {
    if h.Start? then 0 else CountOf(h.before, x) + if h.latest == x then 1 else 0
  }

  /** Committed at once, the two halves are the handler. */
  lemma BeginThenCommit(s: Shared, txn: nat, t: Token, now: int)
    requires txn !in s.open
    ensures var apart := Act(Act(s, Begin(txn, t, now)), Commit(txn, now));
            var whole := Act(s, Whole(Refreshes(t, now)));
            apart.db == whole.db && apart.exchanged == whole.exchanged
  {
  }

  /** Written at once, a listed revocation is the handler. */
  lemma ListThenSweep(s: Shared, txn: nat, user: int, now: int)
    requires Inv(s.db)
    ensures Act(Act(s, List(txn, user, UserRevokedAll, now)), Sweep(txn)).db == RevokeAll(s.db, user, now).db
    ensures Act(Act(s, List(txn, user, MfaReset, now)), Sweep(txn)).db == ResetMfa(s.db, user, now).db
  {
    forall k | k in Live(s.db, user, now) ensures k !in s.db.blacklist { assert RowOk(s.db, k); }
  }

  /** A refresh under way is of a genuine token, and a revocation under way is of stored sessions. */
  ghost predicate PendingOk(db: Db, p: Pending) {
    match p
    case Refreshing(t, _) => t.id in db.issued && db.issued[t.id] == t && t.user in db.users
    case Revoking(user, ids, _, _) => forall k :: k in ids ==> k in db.sessions && db.sessions[k].user == user
  }

  ghost predicate SharedInv(s: Shared) {
    Inv(s.db) && forall x :: x in s.open ==> PendingOk(s.db, s.open[x])
  }

  lemma PendingStaysOk(db: Db, r: Request, p: Pending)
    requires Inv(db) && PendingOk(db, p)
    ensures PendingOk(Settled(db, Handle(db, r)), p)
  {
    HandleMonotone(db, r);
    if p.Revoking? {
      forall k | k in p.ids ensures k != db.nextToken { assert RowOk(db, k); }
    }
  }

  lemma ActKeepsInv(s: Shared, e: Event)
    requires SharedInv(s)
    ensures SharedInv(Act(s, e))
  {
    var s' := Act(s, e);
    forall k ensures RowOk(s'.db, k) {
      if e.Whole? { HandleKeepsInv(s.db, e.r); }
      assert RowOk(s.db, k) && RowOk(s.db, s.db.nextToken);
    }
    forall x | x in s'.open ensures PendingOk(s'.db, s'.open[x]) {
      if e.Whole? { PendingStaysOk(s.db, e.r, s.open[x]); }
      forall k | k in s.db.sessions ensures k != s.db.nextToken { assert RowOk(s.db, k); }
      assert RowOk(s.db, s.db.nextToken);
    }
  }

  lemma ActExchangesOnce(s: Shared, e: Event)
    requires SharedInv(s)
    ensures var s' := Act(s, e);
            && SharedInv(s')
            && (forall k :: k in s.db.blacklist ==> k in s'.db.blacklist)
            && (s'.exchanged == s.exchanged
                || (s'.exchanged.Then? && s'.exchanged.before == s.exchanged
                    && s'.exchanged.latest in s'.db.blacklist && s'.exchanged.latest !in s.db.blacklist))
  {
    ActKeepsInv(s, e);
    if e.Whole? {
      HandleMonotone(s.db, e.r);
    }
  }

  /** Even when refreshes of one token overlap, it is exchanged at most once, and a token blacklisted
      before is not exchanged at all; those exchanged are exactly those blacklisted meanwhile as rotated. */
  lemma {:induction false} OverlappingExchangesOnce(db: Db, events: History<Event>, token: nat)
    requires Inv(db)
    ensures var s := Interleave(db, events);
            && SharedInv(s)
            && CountOf(s.exchanged, token) <= 1
            && (CountOf(s.exchanged, token) == 1 <==>
                  token !in db.blacklist && token in s.db.blacklist && s.db.blacklist[token] == Rotation)
            && (token in db.blacklist ==> CountOf(s.exchanged, token) == 0 && token in s.db.blacklist)
  {
    if events.Then? {
      OverlappingExchangesOnce(db, events.before, token);
      ActExchangesOnce(Interleave(db, events.before), events.latest);
      ActRotates(Interleave(db, events.before), events.latest, token);
    }
  }

  lemma {:induction false} Longer(h: History<nat>, x: nat)
    ensures Then(h, x) != h
  {
    if h.Then? {
      Longer(h.before, h.latest);
    }
  }

  /** A token is blacklisted as rotated by exactly the event that exchanges it. */
  lemma ActRotates(s: Shared, e: Event, token: nat)
    requires SharedInv(s)
    ensures var s' := Act(s, e);
            && (token in s.db.blacklist ==> token in s'.db.blacklist && s'.db.blacklist[token] == s.db.blacklist[token])
            && (token !in s.db.blacklist ==>
                  (token in s'.db.blacklist && s'.db.blacklist[token] == Rotation <==> s'.exchanged == Then(s.exchanged, token)))
  {
    Longer(s.exchanged, token);
    if e.Whole? {
      HandleMonotone(s.db, e.r);
      RotatedByRefresh(s.db, e.r, token);
    }
  }

  /** What the writes of a refresh do: nothing if its token was blacklisted meanwhile, else they spend it
      for the next one; either way the refresh is over. */
  lemma CommitIsExact(s: Shared, txn: nat, at: int)
    requires SharedInv(s) && txn in s.open && s.open[txn].Refreshing?
    ensures
      var t, s' := s.open[txn].t, Act(s, Commit(txn, at));
      && s'.open == s.open - {txn}
      && if t.id in s.db.blacklist then s'.db == s.db && s'.exchanged == s.exchanged
         else && t.id in s'.db.blacklist && s'.exchanged == Then(s.exchanged, t.id)
              && Refresh(s'.db, Token(s.db.nextToken, t.user, at + s.db.lifetime), at).Accepted?
  {
    assert RowOk(s.db, s.open[txn].t.id) && RowOk(s.db, s.db.nextToken);
  }

  /** What the writes of a listed revocation do: a revoke-all is rolled back if a token that it lists was
      blacklisted meanwhile, else all it lists are revoked and blacklisted; an MFA reset revokes them and
      blacklists nothing.  No other session changes. */
  lemma SweepIsExact(s: Shared, txn: nat, k: nat)
    requires SharedInv(s) && txn in s.open && s.open[txn].Revoking? && k in s.db.sessions
    ensures
      var p, s' := s.open[txn], Act(s, Sweep(txn));
      && s'.open == s.open - {txn} && k in s'.db.sessions
      && if p.reason.UserRevokedAll? && (exists i :: i in p.ids && i in s.db.blacklist) then s'.db == s.db
         else
           && s'.db.sessions[k] == (if k in p.ids then s.db.sessions[k].(revoked := Some(Revocation(p.at, p.reason))) else s.db.sessions[k])
           && s'.db.blacklist.Keys == (if p.reason.UserRevokedAll? then s.db.blacklist.Keys + p.ids else s.db.blacklist.Keys)
  {
  }

  /** Also when requests overlap, a revoked session is never revived and a blacklisted token stays so. */
  lemma {:induction false} OverlappingRevokedForever(s: Shared, events: History<Event>, k: nat)
    requires SharedInv(s)
    ensures var s' := Continue(s, events);
            && SharedInv(s')
            && (k in s.db.sessions && s.db.sessions[k].revoked.Some? ==> k in s'.db.sessions && s'.db.sessions[k].revoked.Some?)
            && (k in s.db.blacklist ==> k in s'.db.blacklist)
  {
    if events.Then? {
      OverlappingRevokedForever(s, events.before, k);
      var s1 := Continue(s, events.before);
      ActKeepsInv(s1, events.latest);
      assert RowOk(s1.db, s1.db.nextToken);
      if events.latest.Whole? { HandleMonotone(s1.db, events.latest.r); }
    }
  }

  // ---------------------------------------------------------------- live sessions of overlapping requests

  /** The user's tokens that were issued and not blacklisted. */
  function Unspent(db: Db, user: int): set<nat> {
    set k | k in db.issued && db.issued[k].user == user && k !in db.blacklist
  }

  function SignInEvents(users: set<int>, events: History<Event>, user: int): nat {
    if events.Start? then 0
    else SignInEvents(users, events.before, user) +
         if events.latest.Whole? && events.latest.r.SignsIn? && events.latest.r.user == user && user in users then 1 else 0
  }

  lemma SignInAddsToken(db: Db, owner: int, now: int, user: int)
    requires Inv(db)
    ensures Unspent(Issue(db, owner, now).0, user) == Unspent(db, user) + if owner == user then {db.nextToken} else {}
  {
    assert RowOk(db, db.nextToken);
  }

  lemma RetiringSpends(db: Db, t: Token, r: Revocation, user: int)
    requires Inv(db) && t.id in db.issued && db.issued[t.id] == t
    ensures Inv(Retired(db, {t.id}, r))
    ensures Unspent(Retired(db, {t.id}, r), user) == Unspent(db, user) - {t.id}
  {
    assert RowOk(db, t.id);
    forall k ensures RowOk(Retired(db, {t.id}, r), k) { assert RowOk(db, k); }
  }

  /** An exchange spends one token for the other. */
  lemma ExchangeSwapsToken(db: Db, t: Token, now: int, at: int, user: int)
    requires Inv(db) && t.id in db.issued && db.issued[t.id] == t && t.id !in db.blacklist
    ensures |Unspent(Issue(Retired(db, {t.id}, Revocation(now, Rotation)), t.user, at).0, user)| == |Unspent(db, user)|
  {
    var retired := Retired(db, {t.id}, Revocation(now, Rotation));
    RetiringSpends(db, t, Revocation(now, Rotation), user);
    SignInAddsToken(retired, t.user, at, user);
    assert RowOk(db, db.nextToken);
    assert db.nextToken !in Unspent(retired, user);
    assert t.id in Unspent(db, user) <==> t.user == user;
  }

  lemma ActSpends(s: Shared, e: Event, user: int)
    requires SharedInv(s)
    ensures Act(s, e).db.users == s.db.users
    ensures |Unspent(Act(s, e).db, user)| <= |Unspent(s.db, user)| +
              if e.Whole? && e.r.SignsIn? && e.r.user == user && user in s.db.users then 1 else 0
  {
    if e.Whole? && e.r.SignsIn? {
      SignInAddsToken(s.db, e.r.user, e.r.at, user);
    } else if e.Whole? && e.r.Refreshes? && Refresh(s.db, e.r.t, e.r.at).Accepted? {
      ExchangeSwapsToken(s.db, e.r.t, e.r.at, e.r.at, user);
    } else if e.Commit? && e.txn in s.open && s.open[e.txn].Refreshing? && s.open[e.txn].t.id !in s.db.blacklist {
      ExchangeSwapsToken(s.db, s.open[e.txn].t, s.open[e.txn].at, e.at, user);
    } else {
      SubsetSize(Unspent(Act(s, e).db, user), Unspent(s.db, user));
    }
  }

  lemma {:induction false} UnspentNeverExceedSignIns(db: Db, events: History<Event>, user: int)
    requires Inv(db)
    ensures var s := Interleave(db, events);
            && SharedInv(s) && s.db.users == db.users
            && |Unspent(s.db, user)| <= |Unspent(db, user)| + SignInEvents(db.users, events, user)
  {
    if events.Then? {
      UnspentNeverExceedSignIns(db, events.before, user);
      var s := Interleave(db, events.before);
      ActKeepsInv(s, events.latest);
      ActSpends(s, events.latest, user);
    }
  }

  /** From empty tables, also when requests overlap, a user never has more live sessions than sign-ins. */
  lemma OverlappingLiveNeverExceed(users: set<int>, lifetime: nat, events: History<Event>, user: int, now: int)
    requires lifetime >= 1
    ensures var empty := Db(users, map[], map[], map[], 0, lifetime);
            |Live(Interleave(empty, events).db, user, now)| <= SignInEvents(users, events, user)
  {
    var empty := Db(users, map[], map[], map[], 0, lifetime);
    UnspentNeverExceedSignIns(empty, events, user);
    assert Unspent(empty, user) == {};
    var db := Interleave(empty, events).db;
    forall k | k in Live(db, user, now) ensures k in Unspent(db, user) { assert RowOk(db, k); }
    SubsetSize(Live(db, user, now), Unspent(db, user));
  }

  // ---------------------------------------------------------------- when a revocation is final

  /** The user does not sign in, and the clock does not fall behind `now`. */
  ghost predicate WithoutSignIn(events: History<Event>, user: int, now: int) {
    events.Then? ==>
      && WithoutSignIn(events.before, user, now)
      && match events.latest
         case Whole(r) => !(r.SignsIn? && r.user == user) && now <= r.at
         case Begin(_, _, at) => now <= at
         case Commit(_, at) => now <= at
         case List(_, _, _, at) => now <= at
         case Sweep(_) => true
  }

  /** Until the user signs in again, no session of the user's is live, whatever happens. */
  ghost predicate Final(s: Shared, user: int, now: int) {
    forall events, later :: WithoutSignIn(events, user, now) && now <= later ==> Live(Continue(s, events).db, user, later) == {}
  }

  /** All refreshes of the user's that have passed their checks are bound to fail. */
  ghost predicate NoneChecked(s: Shared, user: int) {
    forall x :: x in s.open && s.open[x].Refreshing? && s.open[x].t.user == user ==> s.open[x].t.id in s.db.blacklist
  }

  /** A token of the user's that has no session row could still be exchanged. */
  predicate Rowless(db: Db, k: nat, user: int, now: int) {
    && k in db.issued && db.issued[k].user == user && now < db.issued[k].expiresAt
    && k !in db.sessions && k !in db.blacklist && user in db.users
  }

  ghost predicate NoneRowless(db: Db, user: int, now: int) {
    forall k :: !Rowless(db, k, user, now)
  }

  ghost predicate Over(db: Db, k: nat, user: int, now: int) {
    k in db.sessions && db.sessions[k].user == user ==> db.sessions[k].revoked.Some? || db.sessions[k].expiresAt <= now
  }

  /** Nothing of the user's can come to life again. */
  ghost predicate NothingLeft(s: Shared, user: int, now: int) {
    && SharedInv(s)
    && NoneChecked(s, user)
    && NoneRowless(s.db, user, now)
    && (forall k :: Over(s.db, k, user, now))
  }

  lemma WholeKeepsEnded(s: Shared, r: Request, user: int, now: int)
    requires NothingLeft(s, user, now) && now <= r.at && !(r.SignsIn? && r.user == user)
    ensures NothingLeft(Act(s, Whole(r)), user, now)
  {
    var db, db' := s.db, Act(s, Whole(r)).db;
    ActExchangesOnce(s, Whole(r));
    if r.Refreshes? && r.t.user == user {
      assert RowOk(db, r.t.id) && Over(db, r.t.id, user, now) && !Rowless(db, r.t.id, user, now);
    }
    forall k ensures !Rowless(db', k, user, now) && Over(db', k, user, now) {
      assert RowOk(db, db.nextToken) && !Rowless(db, k, user, now) && Over(db, k, user, now);
    }
  }

  lemma CommitKeepsEnded(s: Shared, txn: nat, at: int, user: int, now: int)
    requires NothingLeft(s, user, now)
    ensures NothingLeft(Act(s, Commit(txn, at)), user, now)
  {
    var db, db' := s.db, Act(s, Commit(txn, at)).db;
    ActExchangesOnce(s, Commit(txn, at));
    forall k ensures !Rowless(db', k, user, now) && Over(db', k, user, now) {
      assert RowOk(db, db.nextToken) && !Rowless(db, k, user, now) && Over(db, k, user, now);
    }
  }

  lemma BeginKeepsEnded(s: Shared, txn: nat, t: Token, at: int, user: int, now: int)
    requires NothingLeft(s, user, now) && now <= at
    ensures NothingLeft(Act(s, Begin(txn, t, at)), user, now)
  {
    ActExchangesOnce(s, Begin(txn, t, at));
    assert RowOk(s.db, t.id) && Over(s.db, t.id, user, now) && !Rowless(s.db, t.id, user, now);
  }

  lemma RevocationKeepsEnded(s: Shared, e: Event, user: int, now: int)
    requires NothingLeft(s, user, now) && (e.List? || e.Sweep?)
    ensures NothingLeft(Act(s, e), user, now)
  {
    var db, db' := s.db, Act(s, e).db;
    ActExchangesOnce(s, e);
    forall k ensures !Rowless(db', k, user, now) && Over(db', k, user, now) {
      assert RowOk(db, k) && !Rowless(db, k, user, now) && Over(db, k, user, now);
    }
  }

  lemma {:induction false} EndedStays(s: Shared, events: History<Event>, user: int, now: int)
    requires NothingLeft(s, user, now) && WithoutSignIn(events, user, now)
    ensures NothingLeft(Continue(s, events), user, now)
  {
    if events.Then? {
      EndedStays(s, events.before, user, now);
      match events.latest
      case Whole(r) => WholeKeepsEnded(Continue(s, events.before), r, user, now);
      case Begin(txn, t, at) => BeginKeepsEnded(Continue(s, events.before), txn, t, at, user, now);
      case Commit(txn, at) => CommitKeepsEnded(Continue(s, events.before), txn, at, user, now);
      case _ => RevocationKeepsEnded(Continue(s, events.before), events.latest, user, now);
    }
  }

  /** A refresh that was checked before commits afterwards. */
  lemma CheckedRevives(s: Shared, txn: nat, user: int, now: int)
    requires SharedInv(s) && txn in s.open && s.open[txn].Refreshing? && s.open[txn].t.user == user && s.open[txn].t.id !in s.db.blacklist
    ensures !Final(s, user, now)
  {
    var events := Then(Start, Commit(txn, now));
    assert Continue(s, Start) == s && WithoutSignIn(events, user, now);
    assert s.db.nextToken in Live(Continue(s, events).db, user, now);
  }

  lemma RowlessRevives(s: Shared, k: nat, user: int, now: int)
    requires SharedInv(s) && Rowless(s.db, k, user, now)
    ensures !Final(s, user, now)
  {
    var events := Then(Start, Whole(Refreshes(s.db.issued[k], now)));
    assert RowOk(s.db, k);
    assert Continue(s, Start) == s && WithoutSignIn(events, user, now);
    assert s.db.nextToken in Live(Continue(s, events).db, user, now);
  }

  /** When all sessions of the user are over, they stay so if and only if no refresh of the user's
      that can still succeed was checked before, and no token without a session row is left. */
  lemma FinalIsExact(s: Shared, user: int, now: int)
    requires SharedInv(s) && forall k :: Over(s.db, k, user, now)
    ensures Final(s, user, now) <==> NoneChecked(s, user) && NoneRowless(s.db, user, now)
  {
    if NoneChecked(s, user) && NoneRowless(s.db, user, now) {
      forall events, later | WithoutSignIn(events, user, now) && now <= later
        ensures Live(Continue(s, events).db, user, later) == {}
      {
        EndedStays(s, events, user, now);
        forall k ensures k !in Live(Continue(s, events).db, user, later) {
          assert Over(Continue(s, events).db, k, user, now);
        }
      }
    } else if x :| x in s.open && s.open[x].Refreshing? && s.open[x].t.user == user && s.open[x].t.id !in s.db.blacklist {
      CheckedRevives(s, x, user, now);
    } else {
      var k :| Rowless(s.db, k, user, now);
      RowlessRevives(s, k, user, now);
    }
  }

  /** Revoking all sessions is final if and only if every refresh of the user's that is under way,
      and not doomed already, is of a session that is live: its token is blacklisted with the
      others.  What escapes is a token that expired since the check, or has no session row. */
  lemma RevokeAllIsFinal(s: Shared, user: int, now: int)
    requires SharedInv(s) && NoneRowless(s.db, user, now)
    ensures Final(Act(s, Whole(RevokesAll(user, now))), user, now)
       <==> forall x :: x in s.open && s.open[x].Refreshing? && s.open[x].t.user == user && s.open[x].t.id !in s.db.blacklist
                        ==> s.open[x].t.id in Live(s.db, user, now)
  {
    var s' := Act(s, Whole(RevokesAll(user, now)));
    ActExchangesOnce(s, Whole(RevokesAll(user, now)));
    forall k ensures Over(s'.db, k, user, now) && !Rowless(s'.db, k, user, now) {
      assert !Rowless(s.db, k, user, now);
    }
    FinalIsExact(s', user, now);
    assert s'.open == s.open && s'.db.blacklist.Keys == s.db.blacklist.Keys + Live(s.db, user, now);
  }

  /** The MFA reset, which blacklists nothing, is final if and only if no refresh of the user's is
      under way that is not doomed already. */
  lemma MfaResetIsFinal(s: Shared, user: int, now: int)
    requires SharedInv(s) && NoneRowless(s.db, user, now)
    ensures Final(Act(s, Whole(ResetsMfa(user, now))), user, now) <==> NoneChecked(s, user)
  {
    var s' := Act(s, Whole(ResetsMfa(user, now)));
    ActExchangesOnce(s, Whole(ResetsMfa(user, now)));
    forall k ensures Over(s'.db, k, user, now) && !Rowless(s'.db, k, user, now) {
      assert !Rowless(s.db, k, user, now);
    }
    FinalIsExact(s', user, now);
    assert s'.open == s.open && s'.db.blacklist == s.db.blacklist;
  }

  /** A revocation whose query and writes are apart is final if and only if no session was opened since
      the query, and every refresh of the user's that is under way, and not doomed already, is of a
      session that it blacklists. */
  lemma SweepIsFinal(s: Shared, txn: nat, now: int)
    requires SharedInv(s) && txn in s.open && s.open[txn].Revoking? && !SweepFails(s.db, s.open[txn])
    requires NoneRowless(s.db, s.open[txn].user, now)
    ensures var p := s.open[txn];
            Final(Act(s, Sweep(txn)), p.user, now) <==>
              && Live(s.db, p.user, now) <= p.ids
              && forall x :: x in s.open && s.open[x].Refreshing? && s.open[x].t.user == p.user && s.open[x].t.id !in s.db.blacklist
                             ==> p.reason.UserRevokedAll? && s.open[x].t.id in p.ids
  {
    var p, s' := s.open[txn], Act(s, Sweep(txn));
    ActExchangesOnce(s, Sweep(txn));
    if Live(s.db, p.user, now) <= p.ids {
      forall k ensures Over(s'.db, k, p.user, now) && !Rowless(s'.db, k, p.user, now) {
        assert k in Live(s.db, p.user, now) ==> k in p.ids;
        assert !Rowless(s.db, k, p.user, now);
      }
      FinalIsExact(s', p.user, now);
      assert s'.open == s.open - {txn};
      assert s'.db.blacklist.Keys == s.db.blacklist.Keys + if p.reason.UserRevokedAll? then p.ids else {};
      assert forall x :: x in s.open && s.open[x].Refreshing? ==> x in s'.open && s'.open[x] == s.open[x];
    } else {
      var k :| k in Live(s.db, p.user, now) && k !in p.ids;
      assert Continue(s', Start) == s' && k in Live(s'.db, p.user, now);
      assert WithoutSignIn(Start, p.user, now);
    }
  }

  /** For every user and table: a sign-in, a refresh checked while its token lasts, a revoke-all once the
      token has expired, and the refresh's writes: the user has a live session. */
  lemma RevokeAllMissesExpired(db: Db, user: int, now: int)
    requires Inv(db) && user in db.users
    ensures
      var t, late := Token(db.nextToken, user, now + db.lifetime), now + db.lifetime;
      var events := Then(Then(Then(Then(Start, Whole(SignsIn(user, now))), Begin(0, t, now)), Whole(RevokesAll(user, late))), Commit(0, late));
      db.nextToken + 1 in Live(Interleave(db, events).db, user, late)
  {
    var t, late := Token(db.nextToken, user, now + db.lifetime), now + db.lifetime;
    assert RowOk(db, db.nextToken);
    var start := Shared(db, map[], Start);
    assert Continue(start, Start) == start;
    var one := Act(start, Whole(SignsIn(user, now)));
    var two := Act(one, Begin(0, t, now));
    assert two.open == map[0 := Refreshing(t, now)] && two.db == one.db;
    var three := Act(two, Whole(RevokesAll(user, late)));
    assert three.open == two.open && t.id !in three.db.blacklist && three.db.nextToken == db.nextToken + 1;
    var signed := Then(Start, Whole(SignsIn(user, now)));
    assert Continue(start, signed) == one;
    assert Continue(start, Then(signed, Begin(0, t, now))) == two;
    assert Continue(start, Then(Then(signed, Begin(0, t, now)), Whole(RevokesAll(user, late)))) == three;
  }

  /** One sign-in, a refresh checked before an MFA reset and committed after it: the user has a
      live session that the reset was to end. */
  lemma ResetMissesOpenRefresh(db: Db, user: int, now: int)
    requires Inv(db) && user in db.users
    ensures
      var t := Token(db.nextToken, user, now + db.lifetime);
      var events := Then(Then(Then(Then(Start, Whole(SignsIn(user, now))), Begin(0, t, now)), Whole(ResetsMfa(user, now))), Commit(0, now));
      db.nextToken + 1 in Live(Interleave(db, events).db, user, now)
  {
    var t := Token(db.nextToken, user, now + db.lifetime);
    assert RowOk(db, db.nextToken);
    var start := Shared(db, map[], Start);
    assert Continue(start, Start) == start;
    var one := Act(start, Whole(SignsIn(user, now)));
    var two := Act(one, Begin(0, t, now));
    assert two.open == map[0 := Refreshing(t, now)] && two.db == one.db;
    var three := Act(two, Whole(ResetsMfa(user, now)));
    assert three.open == two.open && three.db.blacklist == db.blacklist && three.db.nextToken == db.nextToken + 1;
    var signed := Then(Start, Whole(SignsIn(user, now)));
    assert Continue(start, signed) == one;
    assert Continue(start, Then(signed, Begin(0, t, now))) == two;
    assert Continue(start, Then(Then(signed, Begin(0, t, now)), Whole(ResetsMfa(user, now)))) == three;
  }

  // ---------------------------------------------------------------- the tables, updated in place

  class AuthStore {
    var users: set<int>
    var sessions: map<nat, Session>
    var blacklist: map<nat, Reason>
    var issued: map<nat, Token>
    var nextToken: nat
    const lifetime: nat

    constructor (db: Db)
      ensures Tables() == db
    {
      users, sessions, blacklist, issued, nextToken, lifetime :=
        db.users, db.sessions, db.blacklist, db.issued, db.nextToken, db.lifetime;
    }

    function Tables(): Db
      reads this
    {
      Db(users, sessions, blacklist, issued, nextToken, lifetime)
    }

    method TokenResponse(user: int, now: int) returns (t: Token)
      modifies this
      ensures (Tables(), t) == Issue(old(Tables()), user, now)
    {
      t := Token(nextToken, user, now + lifetime);
      issued := issued[t.id := t];
      nextToken := nextToken + 1;
      sessions := sessions[t.id := Session(user, t.expiresAt, None)];
    }

    method RevokeSessionRow(id: nat, r: Revocation)
      requires id in sessions
      modifies this`sessions
      ensures sessions == Marked(old(sessions), {id}, r)
    {
      sessions := sessions[id := sessions[id].(revoked := Some(r))];
    }

    /** Inserts unless the unique index finds the hash there already. */
    method BlacklistToken(id: nat, reason: Reason) returns (inserted: bool)
      modifies this`blacklist
      ensures blacklist == Blacklisted(old(blacklist), {id}, reason)
      ensures inserted <==> id !in old(blacklist)
    {
      inserted := id !in blacklist;
      if inserted {
        blacklist := blacklist[id := reason];
      }
    }

    method RevokeRefreshToken(t: Token, now: int, reason: Reason, ignoreExisting: bool) returns (ok: bool)
      modifies this
      ensures var o := RevokeToken(old(Tables()), t, now, reason, ignoreExisting);
              ok == o.Accepted? && Tables() == Settled(old(Tables()), o)
    {
      if t.id in blacklist {
        return ignoreExisting && t.user in users;
      }
      if t.user !in users {
        return false;
      }
      if t.id in sessions {
        var session := sessions[t.id];
        if session.user != t.user || session.revoked.Some? || session.expiresAt <= now {
          return false;
        }
        RevokeSessionRow(t.id, Revocation(now, reason));
      }
      assert sessions == Marked(old(sessions), {t.id}, Revocation(now, reason));
      ok := BlacklistToken(t.id, reason);
    }

    method RefreshAuthTokens(t: Token, now: int) returns (answer: Option<Token>)
      modifies this
      ensures var o := Refresh(old(Tables()), t, now);
              Tables() == Settled(old(Tables()), o) && answer == if o.Accepted? then o.token else None
    {
      answer := None;
      if t.id in issued && issued[t.id] == t && now < t.expiresAt {
        var ok := RevokeRefreshToken(t, now, Rotation, false);
        if ok {
          var rotated := TokenResponse(t.user, now);
          answer := Some(rotated);
        }
      }
    }

    method LogoutUser(token: Option<Token>, currentUser: int, now: int) returns (ok: bool)
      modifies this
      ensures var o := Logout(old(Tables()), token, currentUser, now);
              ok == o.Accepted? && Tables() == Settled(old(Tables()), o)
    {
      if token.None? {
        return true;
      }
      var t := token.value;
      if t.id !in issued || issued[t.id] != t || t.expiresAt <= now || t.user != currentUser {
        return false;
      }
      ok := RevokeRefreshToken(t, now, LoggedOut, true);
    }

    method RevokeOneSession(user: int, session: nat, now: int) returns (ok: bool)
      modifies this
      ensures var o := RevokeSession(old(Tables()), user, session, now);
              ok == o.Accepted? && Tables() == Settled(old(Tables()), o)
    {
      if session !in sessions || sessions[session].user != user
         || sessions[session].revoked.Some? || sessions[session].expiresAt <= now {
        return false;
      }
      RevokeSessionRow(session, Revocation(now, UserRevoked));
      var _ := BlacklistToken(session, UserRevoked);
      ok := true;
    }

    /** `revoke_active_refresh_token_sessions_for_user`: row by row. */
    method RevokeActiveSessions(user: int, r: Revocation) returns (revoked: set<nat>)
      modifies this`sessions
      ensures revoked == old(Live(Tables(), user, r.at))
      ensures sessions == Marked(old(sessions), revoked, r)
    {
      revoked := set k | k in sessions && SessionUsable(sessions[k], user, r.at);
      var remaining := revoked;
      while remaining != {}
        invariant remaining <= revoked <= old(sessions).Keys
        invariant sessions == Marked(old(sessions), revoked - remaining, r)
      {
        var id :| id in remaining;
        RevokeSessionRow(id, r);
        remaining := remaining - {id};
      }
    }

    method RevokeAllSessions(user: int, now: int)
      modifies this
      ensures Tables() == RevokeAll(old(Tables()), user, now).db
    {
      var revoked := RevokeActiveSessions(user, Revocation(now, UserRevokedAll));
      var remaining := revoked;
      while remaining != {}
        invariant remaining <= revoked
        invariant blacklist == Blacklisted(old(blacklist), revoked - remaining, UserRevokedAll)
        invariant sessions == Marked(old(sessions), revoked, Revocation(now, UserRevokedAll))
        invariant users == old(users) && issued == old(issued) && nextToken == old(nextToken)
      {
        var id :| id in remaining;
        var _ := BlacklistToken(id, UserRevokedAll);
        remaining := remaining - {id};
      }
    }

    method ResetMfaSessions(user: int, now: int)
      modifies this
      ensures Tables() == ResetMfa(old(Tables()), user, now).db
    {
      var _ := RevokeActiveSessions(user, Revocation(now, MfaReset));
    }
  }
}
