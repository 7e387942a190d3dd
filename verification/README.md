# FlipRadar: a verified model of its protocols, limits, retention and numeric cores

FlipRadar is mostly storage and display, but some of its modules are real state
machines, concurrent protocols or exact arithmetic. This project models those in
Dafny and proves what they keep. `dafny verify dfyconfig.toml` checks all of it.

How the models are built:

- Tables are maps, token and key hashes are injective, so a token stands for its
  hash. Money is in cents, rates and percentages in hundredths, time on one
  integer clock that does not run backwards.
- A request, a query or a commit of one that overlaps with others, a coroutine segment
  between two awaits, or a message delivery is one step, a total function of the
  state: a step that is not possible changes nothing. A run is an inductive history
  of steps (`SlidingWindow.History`), so every statement about a run is about all
  interleavings, failures and replies lost that the step type has.
- Code that updates things in place is a class or a loop whose contract equates
  the new state with the specification function, and the lemmas are about that
  function.
- Where a promise of the code fails, the code is modelled as it is, a lemma gives
  the failing input, and another says exactly when the promise holds.

| file | what it models |
|---|---|
| `Sessions.dfy` | refresh-token rotation, logout, revocation, MFA reset; overlapping refreshes and revocations |
| `BrowserRefresh.dfy` | one browser tab's shared refresh promise and request replay, against `Sessions` |
| `MfaChallenge.dfy` | verification of a sign-in code: unlocked check, row lock, decision, attempt budget |
| `AccountTokens.dfy` | one-time account tokens, their cooldown and their consumption; overlapping requests |
| `DashboardCache.dfy` | the single-flight TTL cache as interleaved coroutines |
| `RateLimiting.dfy` | the Redis counter script, the process-local window, and the breaker between them, with overlapping reservations |
| `LlmRateLimiter.dfy` | the two-level sliding quota |
| `ErrorRateAlert.dfy` | the edge-triggered error-rate alert |
| `PriceRetention.dfy` | weekly and monthly compaction of price observations |
| `ValuationRetention.dfy` | daily rollups of hourly valuations |
| `SnapshotBuilder.dfy` | price metrics with interquartile fences |
| `PortfolioConcentration.dfy` | allocation buckets and the Herfindahl index |
| `WorkerBatches.dfy` | the watchlist worker's job lock, retries and duplicate deliveries |
| `CsvImport.dfy` | the duplicate handling of the portfolio import |
| `Notifications.dfy` | notification preferences, opt-out and e-mail digests; overlapping digests and emissions |
| `SlidingWindow.dfy`, `Grouping.dfy`, `Sorting.dfy`, `Rounding.dfy`, `Wrappers.dfy` | windows over histories, group-by, stable sorting, half-up rounding, options |

Results that differ from what the code or its comments suggest:

- `DashboardCache`: `invalidate_user` says that mutations become visible at once. Its
  callers run it before their transaction commits. Answers from the commit on see
  the mutation exactly when, at the commit, no load of the user is in flight and no
  entry of the user is fresh; otherwise an older load is answered, and even cached.
- `WorkerBatches`: `_acquire_job_lock` calls duplicate delivery harmless. It is as
  long as locks are deleted, replies arrive, and nothing published after a run's
  work ended is delivered before that run released its lock, which the countdown
  of retries and the daily dispatch make likely but do not enforce. Each of the
  three conditions is needed: five runs break one of them and lose work.
- `RateLimiting`: the breaker does not bound how often a process pays for a failing
  call: reservations that are in flight together all pay. What it does guarantee
  is about calls begun after a failure was recorded. The advertised wait may be up
  to a second short, because fractions are dropped.
- `Sessions`: an MFA reset misses a refresh that has passed its checks, and a
  revoke-all misses one whose token expired in between. Both miss a session that
  is opened between their query and their commit.
- `BrowserRefresh`: a page reloaded while a refresh that can still be granted is in
  flight presents the rotated token again, and a logout during such a refresh is
  undone by its answer.
- `PriceRetention`: the monthly upsert replaces, so a month compacted twice loses
  the observations of the first compaction from the count that analytics report.
- `AccountTokens`: MFA-reset links have no cooldown. Requests that overlap both mail
  at one moment and leave two live tokens, and presentations of one token that
  overlap are both accepted, changes of address included.
- `Notifications`: a digest that awaits the mail server when its user turns mail off
  is mailed after that, and an emission that decided before is still created.
- `PortfolioConcentration`: a portfolio worth nothing is rated "low".
- `RateLimiting`: the bound on admissions is one below the obvious
  (2 + n) * max, and that one is attained.

## Model

| member | source | states |
|---|---|---|
| `Sessions.HandleKeepsInv` | backend/flipradar/services/auth_service.py:1043-1168 | every handler keeps: rows belong to issued tokens and agree with them, and a blacklisted token has no unrevoked session |
| `Sessions.RunKeepsInv` | backend/flipradar/services/auth_service.py:1043-1168 | the same over every run of requests |
| `Sessions.RefreshRotates` | backend/flipradar/services/auth_service.py:1092-1102 | a refresh is granted exactly to an unspent token of an existing user whose session, if it has one, is live; the old token is refused ever after, the new one is granted until it expires |
| `Sessions.RevocationsAreExact` | backend/flipradar/services/auth_service.py:1133-1168 | in the tables the handlers leave, read at any later time: revoke-all and the MFA reset leave the user no live session and touch nobody else's; revoke-one ends exactly the named session; only the MFA reset leaves the blacklist alone |
| `Sessions.LogoutIsExact` | backend/flipradar/services/auth_service.py:1105-1121 | a logout with a token is granted exactly to the user whose genuine, unexpired token it is, while its session, if it has one, is live, or once it is blacklisted; it ends that session and no other, of no user, the token cannot be refreshed afterwards, and a second logout changes nothing; without a token nothing happens |
| `Sessions.HandleMonotone` | backend/flipradar/database/repositories.py:908-936 | no handler alters a revoked row, a blacklist entry or an issued token |
| `Sessions.RevokedForever` | backend/flipradar/services/auth_service.py:1043-1168 | over any run a revoked session stays revoked with its record unchanged, and a blacklisted token stays blacklisted |
| `Sessions.ExchangedAtMostOnce` | backend/flipradar/services/auth_service.py:1043-1102 | over any run each refresh token is exchanged at most once, never once it is blacklisted or its session revoked, and those exchanged are exactly those blacklisted meanwhile as rotated |
| `Sessions.HandleBalances` | backend/flipradar/services/auth_service.py:167-182 | one request: unrevoked sessions after, plus those it ended, are those before plus those it opened, for every user |
| `Sessions.SessionsBalance` | backend/flipradar/services/auth_service.py:1043-1168 | the same conservation over any run; a rotation never counts |
| `Sessions.OpenedAreSignIns` | backend/flipradar/services/auth_service.py:167-182 | when all tokens have session rows, only sign-ins open sessions |
| `Sessions.LiveNeverExceedSignIns` | backend/flipradar/services/auth_service.py:167-182 | from empty tables a user never has more live sessions than sign-ins, over any run of requests one at a time |
| `Sessions.RefreshPreservesLive` | backend/flipradar/services/auth_service.py:1092-1102 | a refresh keeps every user's number of live sessions; only a token without a row opens one |
| `Sessions.BeginThenCommit` | backend/flipradar/services/auth_service.py:1043-1089 | a refresh whose checks and writes are apart is the atomic handler when nothing comes between |
| `Sessions.ListThenSweep` | backend/flipradar/services/auth_service.py:1154-1168 | so is a revoke-all, or an MFA reset, whose query and writes are apart |
| `Sessions.ActExchangesOnce` | backend/flipradar/services/auth_service.py:1076-1088 | each event of overlapping refreshes keeps the invariant and exchanges only a token that was not blacklisted and now is |
| `Sessions.OverlappingExchangesOnce` | backend/flipradar/services/auth_service.py:1043-1102 | also when refreshes of one token overlap, it is exchanged at most once, and those exchanged are exactly those blacklisted meanwhile as rotated |
| `Sessions.CommitIsExact` | backend/flipradar/services/auth_service.py:1076-1102 | the writes of a refresh do nothing if its token was blacklisted meanwhile, else they spend it for a next one that can be exchanged |
| `Sessions.SweepIsExact` | backend/flipradar/services/auth_service.py:1154-1168 | the writes of a listed revoke-all are rolled back if a token it lists was blacklisted meanwhile; else exactly what it lists is revoked, and blacklisted but by an MFA reset |
| `Sessions.OverlappingRevokedForever` | backend/flipradar/services/auth_service.py:1043-1168 | also when requests overlap, a revoked session is never revived and a blacklisted token stays so |
| `Sessions.UnspentNeverExceedSignIns` | backend/flipradar/services/auth_service.py:1076-1102 | also when requests overlap, the tokens of a user that were issued and not blacklisted never grow by more than the sign-ins |
| `Sessions.OverlappingLiveNeverExceed` | backend/flipradar/services/auth_service.py:167-182 | from empty tables, also when requests overlap, a user never has more live sessions than sign-ins |
| `Sessions.AcceptanceFades` | backend/flipradar/services/auth_service.py:1051-1074 | a token that cannot be exchanged at some time cannot be exchanged for it after any other request either |
| `Sessions.FinalIsExact` | backend/flipradar/services/auth_service.py:1043-1102 | when all sessions of a user are over, none is live again before the next sign-in, in any continuation of overlapping events, if and only if no refresh that can still succeed has passed its checks and no token without a session row is left |
| `Sessions.RevokeAllIsFinal` | backend/flipradar/services/auth_service.py:1154-1168 | when all exchangeable tokens of the user have session rows, revoking all sessions is final in that sense if and only if every refresh of the user's under way that is not doomed already is of a session still live, whose token is blacklisted with the others |
| `Sessions.MfaResetIsFinal` | backend/flipradar/services/auth_service.py:637-642 | when all exchangeable tokens of the user have session rows, the MFA reset, which blacklists nothing, is final if and only if no refresh of the user's that can still succeed is under way |
| `Sessions.SweepIsFinal` | backend/flipradar/database/repositories.py:922-936 | a revoke-all or MFA reset whose query and writes are apart is final if and only if no session of the user was opened since the query, and every refresh of the user under way that is not doomed already is of a session that it blacklists |
| `Sessions.ResetMissesOpenRefresh` | backend/flipradar/services/auth_service.py:637-642 | for every user and table: a sign-in, a refresh checked before an MFA reset and written after it, and the user has a live session |
| `Sessions.RevokeAllMissesExpired` | backend/flipradar/services/auth_service.py:1154-1168 | for every user and table: a sign-in, a refresh checked while its token lasts, a revoke-all once it has expired, the refresh is written, and the user has a live session |
| `Sessions.AuthStore.TokenResponse` | backend/flipradar/services/auth_service.py:167-182 | stores the session of a fresh token; the tables equal the specification's |
| `Sessions.AuthStore.BlacklistToken` | backend/flipradar/database/repositories.py:810-832 | inserts unless the unique index has the hash, and says which |
| `Sessions.AuthStore.RevokeRefreshToken` | backend/flipradar/services/auth_service.py:1043-1089 | all branches of the check and both writes refine `RevokeToken` |
| `Sessions.AuthStore.RefreshAuthTokens` | backend/flipradar/services/auth_service.py:1092-1102 | revocation then issue refine `Refresh`; a rejected request leaves the tables alone |
| `Sessions.AuthStore.LogoutUser` | backend/flipradar/services/auth_service.py:1105-1121 | refines `Logout` |
| `Sessions.AuthStore.RevokeOneSession` | backend/flipradar/services/auth_service.py:1133-1151 | refines `RevokeSession` |
| `Sessions.AuthStore.RevokeActiveSessions` | backend/flipradar/database/repositories.py:922-936 | the row-by-row loop revokes exactly the user's live sessions and returns them |
| `Sessions.AuthStore.RevokeAllSessions` | backend/flipradar/services/auth_service.py:1154-1168 | the loop over the revoked sessions blacklists every one of them |
| `Sessions.AuthStore.ResetMfaSessions` | backend/flipradar/services/auth_service.py:640-642 | revokes the live sessions and leaves the blacklist as it is |
| `BrowserRefresh.ApiClient.JoinRefresh` | frontend/src/services/apiClient.ts:147-168 | starts a call only without a promise and with a stored token, else shares the pending one |
| `BrowserRefresh.ApiClient.SettleRefresh` | frontend/src/services/apiClient.ts:155-162 | success stores the new session, failure clears it |
| `BrowserRefresh.NextKeepsInv` | frontend/src/services/apiClient.ts:115-222 | every tab, network and server step keeps: the stored token is absent, unrotated, or the one in flight; open calls are the promise's; answers and logins under way carry clean tokens |
| `BrowserRefresh.RunKeepsInv` | frontend/src/services/apiClient.ts:115-222 | the same over every interleaving, from a page opened with or without a stored token, with reloads while no refresh is in flight |
| `BrowserRefresh.TabIsSafe` | frontend/src/services/apiClient.ts:147-208 | with lost responses, logins, logouts, revocations, a token stored by an earlier visit, and reloads while no refresh is in flight: no refresh starts with a token already rotated, at most one refresh call is open, no request is sent more than twice |
| `BrowserRefresh.ReloadIsExact` | frontend/src/services/apiClient.ts:115-168 | in every reachable state: after a reload no refresh ever starts with a rotated token, in any continuation whose further reloads are at rest, if and only if the stored token is neither rotated nor carried by a call on the wire that the server would grant now |
| `BrowserRefresh.ReloadPresentsSpent` | frontend/src/services/apiClient.ts:115-168 | for every token the server would exchange: a run with a reload while its refresh is in flight, after which the rotated token is presented |
| `BrowserRefresh.WaitsForOneRefresh` | frontend/src/services/apiClient.ts:182-207 | over any run, reloads included, a request waits for at most one refresh and is replayed only after one |
| `BrowserRefresh.ConcurrentRefusalsShare` | frontend/src/services/apiClient.ts:152-167 | a request refused while a refresh is open waits for that call and starts none |
| `BrowserRefresh.RefusalIsExact` | frontend/src/services/apiClient.ts:182-203 | a refused request is given up if it goes to a login route, was replayed, or no token is stored; else it waits for the pending refresh, or for one that is started with the stored token |
| `BrowserRefresh.ReplayIsExact` | frontend/src/services/apiClient.ts:198-207 | after any run, when the refresh that a request waits for is over, the request is sent again if and only if the tab stored the answer of that call; else it is given up and the session dropped |
| `BrowserRefresh.OutcomesAreExact` | frontend/src/services/apiClient.ts:155-166 | a lost answer and a refusal both end the session, an answer stores the new one, and the promise is reset after either |
| `BrowserRefresh.RefusalIsRepaired` | frontend/src/services/apiClient.ts:115-207 | a request refused in a tab at rest, whose stored token the server would exchange, is sent again with the session of the new token stored |
| `BrowserRefresh.LoginIsStored` | frontend/src/services/apiClient.ts:115-118 | a login that the server grants is stored once, with a token that the server exchanges until it expires |
| `BrowserRefresh.LogoutIsExact` | frontend/src/services/apiClient.ts:211-222 | after a logout the tab stores no token, in any continuation without a login that is served from that time on, if and only if no refresh is in flight that the server has granted or would grant at that time |
| `MfaChallenge.NextKeepsInv` | backend/flipradar/services/auth_service.py:463-540 | every step of overlapping verifications keeps each token's tables consistent with what was decided about it |
| `MfaChallenge.RunKeepsInv` | backend/flipradar/services/auth_service.py:463-540 | the same over every interleaving |
| `MfaChallenge.ClosedAtMostOnce` | backend/flipradar/services/auth_service.py:463-540 | however verifications overlap, a challenge is closed by at most one sign-in or one lockout, never both, and at most the allowed number of wrong guesses is compared |
| `MfaChallenge.SignsInExactlyWhenOpen` | backend/flipradar/services/auth_service.py:479-540 | under the lock a verification signs in if and only if the challenge exists and was never closed, both secrets match and MFA is still on; then no later check passes |
| `MfaChallenge.LockoutAtTheLimit` | backend/flipradar/services/auth_service.py:487-533 | the wrong guess that reaches the limit, and no earlier one, locks the challenge |
| `MfaChallenge.CheckMeansOpen` | backend/flipradar/services/auth_service.py:466-477 | after any run the check before the lock passes a genuine, unexpired token if and only if its challenge was closed neither by a sign-in nor by a lockout |
| `MfaChallenge.CheckIsExact` | backend/flipradar/services/auth_service.py:466-477 | in terms of the run alone: a verification passes the check before the lock if and only if its token is the one issued, has not expired, and its challenge was not closed |
| `MfaChallenge.SignInIsExact` | backend/flipradar/services/auth_service.py:479-540 | in terms of the run alone: under the lock a verification signs in if and only if it brings the code the challenge was issued with and the answer configured last for its question, for a user whose MFA is on and was not reset since, before any sign-in or lockout of the challenge |
| `MfaChallenge.MfaVerifier.RecordFailure` | backend/flipradar/services/auth_service.py:490-508 | increment, limit test and lockout, with the rollback when the token is blacklisted already |
| `MfaChallenge.MfaVerifier.DecideLocked` | backend/flipradar/services/auth_service.py:479-540 | all branches from the row lock to the commit refine `Decide` |
| `AccountTokens.LatestIsLast` | backend/flipradar/database/repositories.py:645-654 | the latest-token query finds the newest row of the user and purpose if there is one |
| `AccountTokens.IssueKeepsInv` | backend/flipradar/services/auth_service.py:332-368 | issuing, when not cooling down, keeps one live token per user and purpose and the spacing of mails |
| `AccountTokens.RunKeepsInv` | backend/flipradar/services/auth_service.py:612-1000 | over any run of registrations, requests and confirmations, one at a time |
| `AccountTokens.OneLiveToken` | backend/flipradar/services/auth_service.py:349-365 | in every state that requests reach one at a time, a user has at most one live token of a purpose, and it is the newest |
| `AccountTokens.IssuesAreApart` | backend/flipradar/services/auth_service.py:325-329 | of requests one at a time, any two verification, password-reset or e-mail-change mails of a user are at least the cooldown apart |
| `AccountTokens.MfaResetsMayCoincide` | backend/flipradar/services/auth_service.py:586-609 | for every cooldown, user and time: a run in which two MFA-reset links go out at that instant |
| `AccountTokens.ConsumedAtMostOnce` | backend/flipradar/database/repositories.py:667-673 | no token is accepted twice over any run of requests one at a time, and those marked used are exactly those accepted |
| `AccountTokens.EmailChangeCompletes` | backend/flipradar/services/auth_service.py:820-874 | an accepted change sets the address the token was sent for, if free, leaves nothing pending and no other change token of the user acceptable |
| `AccountTokens.CoolingIsExact` | backend/flipradar/services/auth_service.py:325-329 | the check of the newest token refuses exactly while some mail of the user and purpose is younger than the cooldown |
| `AccountTokens.RegisterIsExact` | backend/flipradar/services/auth_service.py:415-447 | a registration is granted exactly for a new user with an address nobody has, if the mail is delivered |
| `AccountTokens.ResendIsExact` | backend/flipradar/services/auth_service.py:973-1003 | a verification mail goes out exactly to a user not verified yet, after the cooldown, if it is delivered |
| `AccountTokens.PasswordResetIsExact` | backend/flipradar/services/auth_service.py:894-920 | a reset is mailed exactly to a known user after the cooldown; an unknown one is told the same |
| `AccountTokens.ChangeRequestIsExact` | backend/flipradar/services/auth_service.py:770-817 | a change of address is mailed exactly with the right password, for an address nobody has and no other user has pending, after the cooldown, if it is delivered; it is then pending |
| `AccountTokens.MfaRequestIsExact` | backend/flipradar/services/auth_service.py:586-609 | an MFA reset is mailed exactly to a user whose MFA is on; everybody is told the same |
| `AccountTokens.AcceptedTokenIsExact` | backend/flipradar/services/auth_service.py:724-767 | an accepted token is used, revokes the others of its user and purpose but for an MFA reset, and changes its user as its purpose says and no other user |
| `AccountTokens.MailedTokenIsAccepted` | backend/flipradar/services/auth_service.py:332-368 | the round trip: the token of a granted request is accepted for the purpose asked for, and no other, exactly until it expires |
| `AccountTokens.AcceptanceIsExact` | backend/flipradar/services/auth_service.py:883-891 | after any run a token is accepted for a purpose if and only if it was mailed for it, is neither used nor revoked, and has not reached the expiry of its mail; a change of address also needs its address pending for the user and free |
| `AccountTokens.CheckReadCommit` | backend/flipradar/services/auth_service.py:923-961 | a presentation whose check, revocation query and commit are apart is the handler when nothing comes between |
| `AccountTokens.AskReadCommit` | backend/flipradar/services/auth_service.py:894-920 | so is a request for a mail, of every purpose, which passes its check exactly when the handler issues |
| `AccountTokens.InterleaveKeepsInv` | backend/flipradar/services/auth_service.py:332-368 | every interleaving keeps: rows and commits agree, a token is live only until an issue that has seen it commits, and an issue has read exactly what of its view is still live |
| `AccountTokens.RunIsInterleaving` | backend/flipradar/services/auth_service.py:612-1000 | every run of requests one at a time is among the interleavings, with the same tables |
| `AccountTokens.TwoLiveOverlapped` | backend/flipradar/database/repositories.py:676-695 | in every state that overlapping requests reach, two live tokens of a user and purpose come from issues that overlapped: each read which tokens to revoke before the other committed |
| `AccountTokens.CommitIsExact` | backend/flipradar/services/auth_service.py:349-365 | when an issue commits, its token is the only live one of its user and purpose if and only if no other was committed since it read and is still live |
| `AccountTokens.AloneIsExact` | backend/flipradar/services/auth_service.py:349-365 | a live token is and stays the only one of its user and purpose, in every continuation, if and only if it is now and no issue under way read before the token was committed |
| `AccountTokens.OverlapLeavesTwo` | backend/flipradar/services/auth_service.py:894-920 | for every state in which a user may ask for a mail, and every purpose (a change of address asks again for the one pending): two requests that overlap mail at one moment and leave two live tokens |
| `AccountTokens.UsedAreAccepted` | backend/flipradar/database/repositories.py:667-673 | also when requests overlap, the tokens marked used are exactly those that were accepted |
| `AccountTokens.OverlapAcceptsTwice` | backend/flipradar/services/auth_service.py:923-961 | for every state in which a token would be accepted, of every purpose: two presentations that overlap are both accepted |
| `AccountTokens.InterleaveKeepsAddresses` | backend/flipradar/database/repositories.py:575-599 | however requests overlap, no two users share an address or a pending address, and what a request has staged nobody else has pending |
| `AccountTokens.SpentIsExact` | backend/flipradar/services/auth_service.py:740-757 | in every state that overlapping requests reach: a used or revoked token of any purpose is never accepted again, in any continuation, if and only if no presentation of it is under way that has passed its check |
| `AccountTokens.ChecksAreInTime` | backend/flipradar/services/auth_service.py:740-751 | also when requests overlap, whatever passes its check, and so whatever is accepted, is for the token's purpose and before the expiry fixed when it was issued |
| `AccountTokens.SpacingIsExact` | backend/flipradar/services/auth_service.py:982-996 | in every state that overlapping requests reach, at any time: all verification, password-reset or e-mail-change mails still to come to a user are at least the cooldown after a given one, in every continuation, if and only if no request for one that has passed its check has mailed, or can still mail, before, and the check cannot pass on an older mail while the cooldown lasts |
| `AccountTokens.AccountTokenStore.RevokeForUser` | backend/flipradar/database/repositories.py:676-695 | the loop revokes exactly the live rows of the user and purpose |
| `AccountTokens.AccountTokenStore.IssueToken` | backend/flipradar/services/auth_service.py:332-368 | revocation then insertion refine `Issue` |
| `AccountTokens.AccountTokenStore.AskPasswordReset` | backend/flipradar/services/auth_service.py:894-920 | unknown user, cooldown and issue refine `RequestPasswordReset` |
| `AccountTokens.AccountTokenStore.ConfirmPasswordReset` | backend/flipradar/services/auth_service.py:923-970 | refines `Consume` for password resets |
| `AccountTokens.AccountTokenStore.ConfirmEmailChange` | backend/flipradar/services/auth_service.py:820-874 | refines `Consume` for e-mail changes |
| `DashboardCache.HitIsRecent` | backend/flipradar/services/portfolio_dashboard_cache.py:16-26 | in every reachable state a lookup hits exactly a cached load of the requested key that started after now minus the time to live |
| `DashboardCache.DashboardCache.LockFor` | backend/flipradar/services/portfolio_dashboard_cache.py:21 | hands out the registered lock, or registers a new one |
| `DashboardCache.DashboardCache.PopAll` | backend/flipradar/services/portfolio_dashboard_cache.py:32-34 | the loop removes exactly the listed keys from both dictionaries |
| `DashboardCache.DashboardCache.InvalidateUser` | backend/flipradar/services/portfolio_dashboard_cache.py:39-43 | removes exactly the user's keys, entries and locks |
| `DashboardCache.DashboardCache.Insert` | backend/flipradar/services/portfolio_dashboard_cache.py:28-35 | a full cache gives up its expired entries, or else its oldest, then stores the result |
| `DashboardCache.PutStaysBounded` | backend/flipradar/services/portfolio_dashboard_cache.py:28-35 | whatever is evicted, an insertion leaves at most 256 entries |
| `DashboardCache.EvictionIsExact` | backend/flipradar/services/portfolio_dashboard_cache.py:28-34 | in every reachable state a returning load evicts from a full cache all entries that had expired when it started, or else the one inserted first, and nothing from a smaller one |
| `DashboardCache.NextKeepsInv` | backend/flipradar/services/portfolio_dashboard_cache.py:14-43 | every coroutine segment and invalidation keeps: bounded and well-formed dictionaries, entries stamped by their own load, one running loader per lock object |
| `DashboardCache.RunKeepsInv` | backend/flipradar/services/portfolio_dashboard_cache.py:14-43 | the same over every interleaving |
| `DashboardCache.CacheIsSafe` | backend/flipradar/services/portfolio_dashboard_cache.py:14-43 | in every interleaving at most 256 entries, every answer is a load of the requested key, and a cached answer at time t comes from a load that started after t minus the time to live |
| `DashboardCache.InvalidationIsOwn` | backend/flipradar/services/portfolio_dashboard_cache.py:39-43 | an invalidation takes the entries of the user and their locks and nobody else's |
| `DashboardCache.InvalidationIsExact` | backend/flipradar/services/portfolio_dashboard_cache.py:39-43 | after an invalidation every later answer to the user, in every continuation, comes from a load started after it, if and only if no load of the user was in flight |
| `DashboardCache.LoadInFlightAnswersLate` | backend/flipradar/services/portfolio_dashboard_cache.py:27-36 | with a load in flight there is always a continuation that answers from before the invalidation |
| `DashboardCache.CommitIsSeenExactly` | backend/flipradar/services/portfolio_service.py:407-425 | from a mutation's commit on, every answer to the user, in every continuation, comes from a load started after it, if and only if no load of the user is in flight at the commit and no entry of the user is fresh |
| `DashboardCache.LateInsertIsServed` | backend/flipradar/services/portfolio_dashboard_cache.py:27-43 | for every key and time: a run of four steps in which the late load refills the cache and a later request is answered from it |
| `DashboardCache.NewcomersShareLock` | backend/flipradar/services/portfolio_dashboard_cache.py:21-22 | while a key's lock is not popped, all coroutines that arrive use the one registered lock |
| `DashboardCache.OneLoaderPerKey` | backend/flipradar/services/portfolio_dashboard_cache.py:21-27 | between evictions and invalidations of a key, at most one of the coroutines that arrived runs its loader |
| `DashboardCache.EnteringLooksFirst` | backend/flipradar/services/portfolio_dashboard_cache.py:15-22 | in every reachable state a coroutine that arrives answers with the load that returned last for its key if that is cached and younger than the time to live; else it waits for the key's lock exactly if somebody has or wants it, and otherwise loads |
| `DashboardCache.WakingLooksAgain` | backend/flipradar/services/portfolio_dashboard_cache.py:22-27 | the second look: a coroutine that gets the lock answers with the load that returned last, and is done, if that is cached and younger than the time to live, and otherwise loads |
| `DashboardCache.OneLoadPerLifetime` | backend/flipradar/services/portfolio_dashboard_cache.py:21-36 | while a key is not popped, and from a state in which nobody has a popped lock of it, a load of it starts only the time to live after the start of every load that has returned meanwhile |
| `DashboardCache.OldLockShortensEntry` | backend/flipradar/services/portfolio_dashboard_cache.py:21-36 | for every key and time: a run with a popped lock in use, in which a load starts earlier than that |
| `RateLimiting.RedisWindow` | backend/flipradar/api/middleware.py:24-34 | counter lifetimes that start a window apart put at most 2 * max - 1 admissions into any window |
| `RateLimiting.ScriptKeepsInv` | backend/flipradar/api/middleware.py:24-34 | the script keeps the counter ahead of the admissions of its lifetime, whether or not its reply arrives |
| `RateLimiting.LocalReserveKeepsInv` | backend/flipradar/api/middleware.py:66-80 | the local deque admits exactly when the trailing window of the full history has room, and keeps every window within the limit |
| `RateLimiting.RetryAfterIsExact` | backend/flipradar/api/middleware.py:72-78 | on a clock finer than a second: a full process advertises the time its oldest slot has left, rounded down to whole seconds and at least one; who waits exactly that long is admitted if and only if nothing was rounded off or at most a second was left, and a second later always |
| `RateLimiting.RedisRetryIsExact` | backend/flipradar/api/middleware.py:24-28 | the wait advertised for a full counter is the nearest number of seconds, at least one; who waits exactly so long is admitted if and only if it was not rounded down |
| `RateLimiting.SlotsLastTheWindow` | backend/flipradar/api/middleware.py:66-80 | a slot counts for the policy's seconds, at Redis and in a process; who is admitted is told of no wait, and nobody else |
| `RateLimiting.WholeIsReserveOnce` | backend/flipradar/api/middleware.py:108-134 | when nothing comes between them, breaker test, script and reply or failure leave counter and process as the handler does, and admit one request more exactly if it is allowed |
| `RateLimiting.StepKeepsInv` | backend/flipradar/api/middleware.py:108-134 | every step of overlapping reservations (breaker test, script, reply, failure before or after the script ran) keeps the system invariant |
| `RateLimiting.RunKeepsInv` | backend/flipradar/api/middleware.py:108-134 | the same over every run of n processes |
| `RateLimiting.AdmissionBound` | backend/flipradar/api/middleware.py:66-134 | however reservations overlap, and for any pattern of failures, lost replies and recoveries, n processes admit at most (2 + n) * max - 1 requests in any window of the policy's length |
| `RateLimiting.HealthyBound` | backend/flipradar/api/middleware.py:108-123 | while Redis answers, at most 2 * max - 1, whatever the number of processes |
| `RateLimiting.BoundIsTight` | backend/flipradar/api/middleware.py:66-134 | for every policy and every n >= 1 a run that admits exactly (2 + n) * max - 1 in one window |
| `RateLimiting.ContactIsExact` | backend/flipradar/api/middleware.py:110-125 | over any run a reservation goes to Redis if and only if every failure that its process has recorded lies at least 30 seconds back |
| `RateLimiting.CloseFailuresAreExact` | backend/flipradar/api/middleware.py:110-125 | from the moment a process records a failure it pays for no other failing call within 30 seconds, in every continuation, if and only if no other call of it is open then |
| `RateLimiting.OverlappingFailures` | backend/flipradar/api/middleware.py:110-125 | for every policy and process: two reservations that pass the test before either fails make the process pay for two failing calls at one moment |
| `RateLimiting.ProcessLocalFixedWindowLimiter.Reserve` | backend/flipradar/api/middleware.py:66-80 | the popping loop and the deque of the key refine `LocalReserve`; other keys keep theirs |
| `RateLimiting.RedisServer.Eval` | backend/flipradar/api/middleware.py:24-34 | GET, INCR, EXPIRE and TTL in the script's order refine `ReserveScript`; other keys are untouched |
| `RateLimiting.RedisRateLimiter.Reserve` | backend/flipradar/api/middleware.py:108-134 | the choice between Redis and fallback, and the breaker's timestamp, refine `ReserveOnce` |
| `LlmRateLimiter.ExtendKeepsQuotas` | backend/flipradar/services/llm_recommendation_service.py:113-125 | a decision by naive counting keeps both quotas for every window and every user |
| `LlmRateLimiter.RunKeepsQuotas` | backend/flipradar/services/llm_recommendation_service.py:101-130 | over any run every window (s, s+W] holds at most the global quota and at most each user's quota |
| `LlmRateLimiter.RefusalMeansFull` | backend/flipradar/services/llm_recommendation_service.py:119-125 | a refusal names a quota that is filled exactly, the global one first; an admission means both have room |
| `LlmRateLimiter.Prune` | backend/flipradar/services/llm_recommendation_service.py:127-130 | what is left of a deque is as long as the naive count of the window over the full history |
| `LlmRateLimiter.LlmRateLimiter.Acquire` | backend/flipradar/services/llm_recommendation_service.py:113-125 | the pruned deques decide exactly as counting the whole admission history would, and a refusal records nothing |
| `ErrorRateAlert.ErrorRateMonitor.Record` | backend/flipradar/core/observability.py:89-119 | deque, latch and alert count stay equal to the history suffix in the window, the threshold condition and the number of its rising edges; an alert goes out exactly on a rising edge |
| `ErrorRateAlert.DropStale` | backend/flipradar/core/observability.py:95-96 | popping from the left leaves exactly the suffix inside the window |
| `ErrorRateAlert.ElevatedIsExact` | backend/flipradar/core/observability.py:98-107 | the condition is the service's: enough requests in the window, and 100 times the errors over the requests, or 0 without any, reaches the threshold |
| `ErrorRateAlert.FailingWindowAlerts` | backend/flipradar/core/observability.py:98-107 | with a threshold of at most 100 percent, enough requests that all failed raise the condition |
| `ErrorRateAlert.QuietWindowClears` | backend/flipradar/core/observability.py:94-119 | with a positive threshold, a window without a server error clears the condition, whatever came before |
| `ErrorRateAlert.AlertNeedsErrors` | backend/flipradar/core/observability.py:97-107 | the condition needs, inside its window, at least the threshold's share of the least number of requests as errors |
| `PriceRetention.BuildRollups` | backend/flipradar/services/price_snapshot_retention.py:33-75 | one aggregate for every series and period that occurs, each of exactly its own observations |
| `PriceRetention.PeriodStartIsExact` | backend/flipradar/services/price_snapshot_retention.py:22-30 | a week starts on its Monday, a month on its first, for every day of it |
| `PriceRetention.GroupIsOrdered` | backend/flipradar/services/price_snapshot_retention.py:48 | a group of rows in query order is in order already |
| `PriceRetention.RollupIsHonest` | backend/flipradar/services/price_snapshot_retention.py:49-73 | low and high bound the group and are reached, the latest value is that of a last observation, low <= latest <= high and low <= rounded average <= high |
| `PriceRetention.CompactionPartitions` | backend/flipradar/services/price_snapshot_retention.py:34-44 | for the weekly and for the monthly period alike there is one rollup per group and their counts add up to the number of rows |
| `PriceRetention.PriceStore.Compact` | backend/flipradar/database/repositories.py:1311-1336 | the upserts replace the rollups of exactly the compacted periods |
| `PriceRetention.PriceStore.Prune` | backend/flipradar/services/price_snapshot_retention.py:11-19 | both compactions and the deletion refine `Pruned`; the count returned is the number of rows compacted |
| `PriceRetention.PruneCount` | backend/flipradar/services/price_analytics_service.py:75-77 | for every choice of series a prune changes the reader's observation count by exactly what replaced monthly rollups had counted |
| `PriceRetention.CountSurvivesExactly` | backend/flipradar/database/repositories.py:1311-1336 | the count is unchanged if and only if no selected row expires in a month that has a rollup; otherwise it falls |
| `PriceRetention.RunStaysSound` | backend/flipradar/services/price_snapshot_retention.py:11-19 | in every reachable state each rollup has a positive count and its latest and average between low and high |
| `PriceRetention.CountIsConserved` | backend/flipradar/services/price_analytics_service.py:75-77 | over any run, the reader's count and what replaced rollups had counted add up to all observations ever recorded |
| `PriceRetention.StraddlingMonth` | backend/flipradar/database/repositories.py:1311-1336 | a run with two observations of one month and two cutoffs after which the reader counts one |
| `ValuationRetention.ValuationStore.CreateSnapshot` | backend/flipradar/services/portfolio_service.py:1049-1099 | stores a snapshot unless the user's hourly window is taken |
| `ValuationRetention.RecordIsExact` | backend/flipradar/services/portfolio_service.py:1049-1056 | a snapshot is stored if and only if the user has none between the same full hours |
| `ValuationRetention.PruneIsExact` | backend/flipradar/services/portfolio_valuation_retention.py:9-22 | a prune keeps exactly the rows from the cutoff on, leaves a rollup for each earlier one, and replaces a rollup only by a strictly later snapshot |
| `ValuationRetention.LatestPerUserDay` | backend/flipradar/services/portfolio_valuation_retention.py:15-18 | the loop keeps a latest snapshot of every user and day that occurs |
| `ValuationRetention.ValuationStore.UpsertAll` | backend/flipradar/database/repositories.py:1984-2016 | every upsert loop order gives the same table: only later snapshots replace |
| `ValuationRetention.ValuationStore.AggregateAndPrune` | backend/flipradar/services/portfolio_valuation_retention.py:9-22 | rolls up each day's latest expired row and deletes exactly the expired rows |
| `ValuationRetention.PruneKeepsInv` | backend/flipradar/services/portfolio_valuation_retention.py:9-22 | a prune leaves, for everything ever stored, something as late of the same user and day |
| `ValuationRetention.RunKeepsInv` | backend/flipradar/services/portfolio_valuation_retention.py:9-22 | the same over every run of snapshots and prunes |
| `ValuationRetention.LatestOfDaySurvives` | backend/flipradar/database/repositories.py:2028-2042 | after any run, what a reader sees as a day's latest valuation is exactly the latest ever stored for it, values included |
| `ValuationRetention.RollupsAreHonest` | backend/flipradar/database/repositories.py:1984-2016 | at most one rollup per user and day, on that day, and as it was stored |
| `ValuationRetention.PruneTwice` | backend/flipradar/services/portfolio_valuation_retention.py:9-22 | a second prune with the same cutoff changes nothing |
| `SnapshotBuilder.ExcludeIqrOutliers` | backend/flipradar/services/snapshot_builder.py:90-110 | the loop separates, in order, the listings inside the fences from the others; below four prices all are kept |
| `SnapshotBuilder.SplitIsPartition` | backend/flipradar/services/snapshot_builder.py:100-106 | no listing is lost or duplicated |
| `SnapshotBuilder.ConditionIsExact` | backend/flipradar/services/snapshot_builder.py:113-120 | what is new by label or seal is priced as new, the rest by its completeness, and nothing else is priced |
| `SnapshotBuilder.ConversionIsExact` | backend/flipradar/services/snapshot_builder.py:73-87 | a converted amount is the nearest cent, and a listing's price the sum of price and shipping |
| `SnapshotBuilder.QuartileIsInterpolated` | backend/flipradar/services/snapshot_builder.py:97-98 | a quartile is the linear interpolation at its position among the sorted prices |
| `SnapshotBuilder.ExcludedIsExact` | backend/flipradar/services/snapshot_builder.py:96-104 | a listing is left out if and only if there are four prices and its own is missing or more than one and a half interquartile ranges beyond a quartile |
| `SnapshotBuilder.CoreIsInside` | backend/flipradar/services/snapshot_builder.py:97-99 | every sorted position above the lower-quartile index up to the upper-quartile index lies within the fences |
| `SnapshotBuilder.KeptPricesAreCentral` | backend/flipradar/services/snapshot_builder.py:97-106 | the kept prices are a gap-free stretch of the sorted prices that holds all those positions, so at least half of n - 1 |
| `SnapshotBuilder.MetricsAreOrdered` | backend/flipradar/services/snapshot_builder.py:50-56 | stored low <= median, average, fair value <= stored high, also after half-up rounding |
| `SnapshotBuilder.MetricsAreExact` | backend/flipradar/services/snapshot_builder.py:44-56 | low and high are the ends of the sorted prices, the median the nearest cent to half of what its middle adds up to, the average to the sum over the number, and the fair value is the median |
| `SnapshotBuilder.GroupByCondition` | backend/flipradar/services/snapshot_builder.py:28-38 | the dictionary has a group for every condition of a listing with a price, in the order of their first such listing, each with exactly its convertible listings; a failed conversion leaves its group empty |
| `SnapshotBuilder.Build` | backend/flipradar/services/snapshot_builder.py:15-70 | the rows of all groups in the order in which the groups were made |
| `SnapshotBuilder.SomethingSurvives` | backend/flipradar/services/snapshot_builder.py:42-49 | the filter leaves a price in every group, so no condition with a usable listing is skipped |
| `SnapshotBuilder.ConditionsAreUsable` | backend/flipradar/services/snapshot_builder.py:28-38 | the conditions reported are distinct and exactly those of the listings with a condition, a price and a rate |
| `SnapshotBuilder.RowsAreComplete` | backend/flipradar/services/snapshot_builder.py:40-70 | exactly one row for each such condition and metric, in the groups' order, computed from the kept listings of the condition and between the low and high stored with it |
| `PortfolioConcentration.TotalIsSumOfHoldings` | backend/flipradar/services/portfolio_analytics_service.py:240-247 | the portfolio total equals the sum of the analysed holdings' values |
| `PortfolioConcentration.CollectBuckets` | backend/flipradar/services/portfolio_analytics_service.py:127-146 | the loop's buckets are those of the categories that occur, each of exactly its own holdings |
| `PortfolioConcentration.Allocation` | backend/flipradar/services/portfolio_analytics_service.py:127-159 | the buckets by value, largest first, with their shares |
| `PortfolioConcentration.AllocationConserves` | backend/flipradar/services/portfolio_analytics_service.py:141-146 | buckets conserve the number of holdings, units, market value and unvalued holdings |
| `PortfolioConcentration.AllocationGroups` | backend/flipradar/services/portfolio_analytics_service.py:156-158 | one bucket per category, no other, ordered by value |
| `PortfolioConcentration.SharesAreNearest` | backend/flipradar/services/portfolio_analytics_service.py:147-156 | each share of an allocation is the nearest hundredth of a percent, and none of a worthless portfolio |
| `PortfolioConcentration.SharesAddUp` | backend/flipradar/services/portfolio_analytics_service.py:165-169 | the valued holdings' values add up to the total, so their shares to 100 percent |
| `PortfolioConcentration.CauchySchwarz` | backend/flipradar/services/portfolio_analytics_service.py:170 | the squared sum of n values is at most n times the sum of their squares |
| `PortfolioConcentration.IndexBounds` | backend/flipradar/services/portfolio_analytics_service.py:170-171 | the unrounded index is at least 10000/n, at most 100 times the largest share, and at most 10000 |
| `PortfolioConcentration.ValuedAre` | backend/flipradar/services/portfolio_analytics_service.py:163 | the valued holdings are exactly those with a value |
| `PortfolioConcentration.FiguresAreExact` | backend/flipradar/services/portfolio_analytics_service.py:162-189 | the stored index is the nearest hundredth to the sum of the squared shares, the largest share that of a greatest value, the top three that of three values no other exceeds, and the effective number 10000 over the index |
| `PortfolioConcentration.RatingIsExact` | backend/flipradar/services/portfolio_analytics_service.py:173-181 | high if and only if the largest share is 40 percent or the index 2500, else moderate if and only if 20 percent or 1500 |
| `PortfolioConcentration.ConcentrationBounds` | backend/flipradar/services/portfolio_analytics_service.py:162-193 | with a positive total: round(10000/n) <= stored index <= 10000, largest <= top three <= 100 percent (equal to 100 up to three holdings), effective count at least one exactly when the index does not round to zero, which it never does up to two million holdings |
| `PortfolioConcentration.LowNeedsSeven` | backend/flipradar/services/portfolio_analytics_service.py:173-181 | with a positive total, level "low" needs at least seven valued holdings |
| `PortfolioConcentration.FewAreLowWhenWorthless` | backend/flipradar/services/portfolio_analytics_service.py:165-181 | with fewer than seven valued holdings the level is "low" if and only if the total is zero |
| `PortfolioConcentration.SingleHolding` | backend/flipradar/services/portfolio_analytics_service.py:162-193 | one valued holding: index 10000.00, effective count 1.00, level "high" |
| `WorkerBatches.LockKeyIsExact` | backend/flipradar/worker/tasks.py:76-86 | two messages share a lock if and only if they have the same provider and the same sets, each with the same users in any order |
| `WorkerBatches.NextKeepsInv` | backend/flipradar/worker/tasks.py:89-127 | every step keeps: a delivery at work holds its lock, and no two hold the same |
| `WorkerBatches.NeverTogether` | backend/flipradar/worker/tasks.py:191-215 | whatever Redis loses and the broker duplicates, two deliveries of one job are never at work together |
| `WorkerBatches.WorkingHolderCarries` | backend/flipradar/worker/tasks.py:203-208 | while the lock's holder works, it carries everything the duplicate does |
| `WorkerBatches.StepKeepsOwed` | backend/flipradar/worker/tasks.py:110-127 | an item stops being owed only by a commit that refreshed it or by dropping its only carrier |
| `WorkerBatches.OrderlyKeepsLocks` | backend/flipradar/worker/tasks.py:89-107 | when no reply to taking a lock is lost and every lock is deleted on release, each lock in Redis belongs to a delivery at work |
| `WorkerBatches.SkipLeavesCarrier` | backend/flipradar/worker/tasks.py:203-226 | a duplicate skipped behind a working, a committed or a failed run leaves each item with that run, with what it hands back, or with its retry |
| `WorkerBatches.NothingIsDropped` | backend/flipradar/worker/tasks.py:191-285 | over any run in which no reply to taking a lock is lost, released locks are deleted, and no message published after a run's work ended is delivered before that run gave the lock back: every dispatched set is queued, running or waiting for its retry until a run that refreshed it has committed |
| `WorkerBatches.OrphanedLockDrops` | backend/flipradar/worker/tasks.py:101-107 | for every message: a run with only a lock not deleted, whose retry is dropped with the work still due |
| `WorkerBatches.LostReplyDrops` | backend/flipradar/worker/tasks.py:92-97 | for every message: a run with only a reply to taking the lock lost, whose retry is dropped |
| `WorkerBatches.DispatchBeforeReleaseDrops` | backend/flipradar/worker/tasks.py:209-215 | for every message: a run with only an untimely delivery, of the job dispatched again before the lock of its finished run is released |
| `WorkerBatches.RetryBeforeReleaseDrops` | backend/flipradar/worker/tasks.py:211-215 | for every message: a run with only an untimely delivery, of the retry that is scheduled before the lock is released |
| `WorkerBatches.HandedBackBeforeReleaseDrops` | backend/flipradar/worker/tasks.py:214-222 | for every set: a run with only an untimely delivery, of what a larger batch hands back, while the lock of the same job's finished run is held |
| `WorkerBatches.RefreshSets` | backend/flipradar/worker/tasks.py:237-270 | the loop counts the refreshed sets, affects exactly their users, and fails exactly the sets that the hourly limit or the provider refused |
| `WorkerBatches.RefreshIsPartition` | backend/flipradar/worker/tasks.py:241-264 | refreshed and retried sets together are the batch and share nothing |
| `WorkerBatches.RetriedIsExact` | backend/flipradar/worker/tasks.py:214-222 | an uninterrupted delivery that takes the lock sends back, under its retry, all it was for if the run raised, else exactly the sets that the hourly limit or the provider refused; other messages stay |
| `WorkerBatches.AffectedIsExact` | backend/flipradar/worker/tasks.py:255-256 | the users who are told are exactly those of the sets that were refreshed |
| `WorkerBatches.Worker.AcquireJobLock` | backend/flipradar/worker/tasks.py:89-98 | unavailable, ours or somebody's; a lost reply leaves the lock taken |
| `WorkerBatches.Worker.RefreshProviderBatch` | backend/flipradar/worker/tasks.py:191-226 | a delivery that nothing interleaves with leaves broker and Redis as the protocol's steps do |
| `CsvImport.CheckRow` | backend/flipradar/services/portfolio_service.py:133-198 | the fault of a row, found from the dictionary of keys, is its fault with respect to all earlier rows |
| `CsvImport.FaultIsExact` | backend/flipradar/services/portfolio_service.py:134-198 | a row with fields after rows in order is good if and only if its portfolio is that of every earlier row, its set is known and, if repeats are rejected, no earlier row is the same purchase; the first fault in that order is reported |
| `CsvImport.AddPurchase` | backend/flipradar/services/portfolio_service.py:196-213 | dictionary, rows and folded lines follow the group-by of one more line |
| `CsvImport.Parse` | backend/flipradar/services/portfolio_service.py:100-216 | a file is imported if and only if no row has a fault, else the first faulty row is reported with its line; in merge mode the rows are the group-by of all lines |
| `CsvImport.MergeConserves` | backend/flipradar/services/portfolio_service.py:199-209 | of every accepted file, merging leaves distinct keys in first-occurrence order, exactly those of the file, with the total quantity unchanged and every line either a row or folded into one |
| `CsvImport.MergedRowIsGroup` | backend/flipradar/services/portfolio_service.py:200-201 | of every accepted file, a row's quantity is the sum over exactly the lines of its key |
| `CsvImport.RejectIsExact` | backend/flipradar/services/portfolio_service.py:197-198 | rejecting accepts exactly what the other modes accept and whose keys are all different |
| `CsvImport.ModesAgree` | backend/flipradar/services/portfolio_service.py:196-213 | a file accepted when repeats are rejected is accepted in all modes, with the same rows line by line |
| `Notifications.NotificationStore.EmitNotification` | backend/flipradar/services/notification_service.py:70-120 | created only with a channel, a new dedupe key and a free event key, eligible for mail only if kind and user allow it |
| `Notifications.NotificationStore.SetPreference` | backend/flipradar/services/notification_service.py:255-272 | a partial update, and what was pending of the kind is disabled when mail is turned off |
| `Notifications.NotificationStore.SetSettings` | backend/flipradar/services/notification_service.py:280-286 | a partial update, and everything pending is disabled when mail is turned off |
| `Notifications.NotificationStore.DeliverDigest` | backend/flipradar/services/notification_service.py:305-376 | one user's turn: opted out, quiet, sent or not |
| `Notifications.NotificationStore.DeliverDigests` | backend/flipradar/services/notification_service.py:300-377 | the loop over the users and its counts |
| `Notifications.QuietIsExact` | backend/flipradar/services/notification_service.py:40-51 | quiet hours last from their start to their end on a clock of 24 hours, past midnight if need be, and all day if the two are the same |
| `Notifications.PreferenceIsKept` | backend/flipradar/services/notification_service.py:255-272 | a channel that is named gets the value given, one that is not keeps its own, in-app on and mail off at first; others keep theirs |
| `Notifications.SettingsAreKept` | backend/flipradar/services/notification_service.py:280-297 | the same for a user's settings; unsubscribing opts out |
| `Notifications.DisablesExactly` | backend/flipradar/database/repositories.py:2379-2391 | turning mail off disables exactly what waits, of the kind or of all; another change leaves every notification alone |
| `Notifications.EmitIsExact` | backend/flipradar/services/notification_service.py:70-119 | an event leaves nothing without a channel, for a repeated event or a taken event key; else a notification for the channels that are on, to be mailed unless the user opted out |
| `Notifications.DigestIsExact` | backend/flipradar/services/notification_service.py:305-365 | a user's turn disables what waits if the user opted out, marks exactly what waits if the mail got through outside quiet hours, and changes nothing else |
| `Notifications.PassIsExact` | backend/flipradar/services/notification_service.py:300-377 | a pass over different users gives each of them the turn it would have alone and leaves the others' notifications |
| `Notifications.PassCounts` | backend/flipradar/services/notification_service.py:310 | a pass counts exactly what waited for its users |
| `Notifications.NextKeepsInv` | backend/flipradar/services/notification_service.py:77-119 | every step keeps: what waits is wanted, event keys and dedupe keys are unique |
| `Notifications.RunKeepsInv` | backend/flipradar/services/notification_service.py:77-119 | the same over every run |
| `Notifications.OptOutIsRespected` | backend/flipradar/services/notification_service.py:289-315 | in every reachable state nothing waits for an opted-out user or a disabled kind, and what a digest mails was wanted and outside quiet hours |
| `Notifications.EventsAreUnique` | backend/flipradar/services/notification_service.py:83-94 | no two notifications share an event key, or a user and a dedupe key |
| `Notifications.SettledForever` | backend/flipradar/database/repositories.py:2379-2391 | a notification that no longer waits is never changed again by any continuation |
| `Notifications.PendingAtOptOutIsNeverMailed` | backend/flipradar/services/notification_service.py:264-297 | of steps one at a time: what was pending when mail was turned off is never mailed, whatever is turned on later |
| `Notifications.MailedIffMarked` | backend/flipradar/database/repositories.py:2422-2431 | over any run a notification is in at most one delivered digest, and marked as sent exactly if it was in one |
| `Notifications.DigestIsComplete` | backend/flipradar/services/notification_service.py:305-365 | a digest reaches all that waits for its user or nothing, and other users' notifications stay |
| `Notifications.DeliveredIsMarked` | backend/flipradar/services/notification_service.py:365-377 | the delivered count of a pass is the number of notifications it marked, and never above the pending count |
| `Notifications.StepsAreWhole` | backend/flipradar/services/notification_service.py:305-365 | a digest whose reading, mailing and marking are apart is the atomic turn when nothing comes between; it is opened exactly if something waits for a user who did not opt out, outside quiet hours, and leaves no trace if it does not get through |
| `Notifications.EmissionIsWhole` | backend/flipradar/services/notification_service.py:70-119 | an emission whose decision and commit are apart is the atomic one when nothing comes between |
| `Notifications.SettledIsExact` | backend/flipradar/database/repositories.py:2422-2431 | a notification that is disabled or marked as sent is told about in no digest delivered from then on, in any continuation of overlapping steps, if and only if none that tells about it awaits the mail server |
| `Notifications.OptOutIsExact` | backend/flipradar/services/notification_service.py:264-297 | what was pending when mail was turned off is never mailed after that if and only if no digest that tells about it awaits the mail server at that moment |
| `Notifications.OffIsExact` | backend/flipradar/services/notification_service.py:77-119 | while mail about a kind stays off for a user nothing of the kind waits, in any continuation, if and only if nothing waits now and no emission that decided to mail before can still commit |
| `Notifications.LetterSurvivesOptOut` | backend/flipradar/services/notification_service.py:331-365 | for every state in which a digest may go to a user: mail turned off while it awaits the mail server, and what waited is mailed after that |
| `Grouping.GroupRows` | backend/flipradar/services/price_snapshot_retention.py:34-44 | the loop filling a dictionary of lists yields the distinct keys in first-occurrence order, each with exactly its rows in order |
| `Grouping.GroupsPartition` | backend/flipradar/services/price_snapshot_retention.py:34-44 | for every weight the groups' totals add up to the total of the rows |
| `Sorting.SortIsStable` | backend/flipradar/services/portfolio_analytics_service.py:156-158 | what has the same key stays in its order |
| `SlidingWindow.PopExpired` | backend/flipradar/services/llm_recommendation_service.py:127-130 | on a deque in time order, popping from the left leaves exactly the unexpired part |
| `SlidingWindow.AdmitKeepsBounded` | backend/flipradar/services/llm_recommendation_service.py:119-125 | admitting when the trailing window has room keeps every window bounded |
| `Rounding.HalfUp` | backend/flipradar/services/snapshot_builder.py:184-185 | the result is within half a unit, ties away from zero |
| `Rounding.HalfUpIs` | backend/flipradar/services/snapshot_builder.py:184-185 | no other integer is |
| `Rounding.HalfUpMonotone` | backend/flipradar/services/portfolio_analytics_service.py:36-37 | rounding keeps the order of fractions |

## Left out

- Transactions: a handler is one atomic step, except where its reads and its writes are modelled apart (refreshes, revocations of all sessions, MFA verifications, presentations of account tokens and requests for them, rate-limit reservations, digests and emissions of notifications, worker deliveries). What a request writes becomes visible at once, at its commit; two prunes running at once are not modelled.
- Row locks of the database outside `MfaChallenge`: they delay a step until another request ends, so every run that they allow is among those modelled; the runs that the lemmas give as failing need no step that a lock delays.
- `created_at` of an account token is the time its transaction began, as in PostgreSQL; an address is staged in one step with the check before it.
- AccountTokens.OneLiveToken: requests one at a time; for those that overlap it is false, and `CommitIsExact` and `AloneIsExact` say when it holds.
- AccountTokens.IssuesAreApart: requests one at a time; for those that overlap `SpacingIsExact` says when it holds.
- AccountTokens.ConsumedAtMostOnce: requests one at a time; for those that overlap `SpentIsExact` says when it holds.
- Notifications.PendingAtOptOutIsNeverMailed: steps one at a time; for those that overlap `OptOutIsExact` says when it holds.
- Notifications.EventsAreUnique: emissions one at a time; two that overlap can repeat a dedupe key, which has no unique index.
- Clocks: one nondecreasing integer clock stands for wall, monotonic and Redis time; only `RateLimiting` divides seconds into ticks.
- Redis: data loss, eviction and failover are not modelled; a command takes effect at one instant.
- Worker crashes and the expiry of the job lock after a day, and the provider's hourly limit, whose refusal is one outcome of a set.
- The daily job that empties the MFA blacklist: its comment says that every token has expired, the code does not check it, and runs with that step are not covered by `MfaChallenge`.
- Deletion of users, and of the rows that go with them.
- Several tabs sharing one local storage, and the access token's own expiry.
- BrowserRefresh.TabIsSafe: reloads while a refresh is in flight are left out; `ReloadIsExact` says which of them break it.
- The 403 branch of the response interceptor and the events it dispatches.
- Lock fairness: a waiter of an asyncio lock may overtake another in `DashboardCache`, which allows more runs than the event loop does.
- Division of decimals at 28 digits and of floats: averages and shares are rounded from exact fractions, and the error rate is compared with its threshold by multiplying out.
- The civil calendar: a date carries its ordinal and its day of the month; how timestamps map to dates is not modelled.
- The orders in which the database returns rows that tie on every sort key.
- The payload texts of price snapshots, the displayed fences and the marketplaces they list.
- Time zones of quiet hours: the user's local minute is an input.
- CSV syntax and field validation: a row is malformed, blank or a validated purchase.
- Cryptography, HTTP, SMTP, OAuth, LLM prompts, schemas, scoring, and the remaining analytics, which are straightforward or depend on libraries.
- A mail that was delivered although the server reported an error, and a crash between sending a digest and committing it.
- HTTP answers of the MFA handlers: only their kind is modelled; the error that the unique index raises stands for the rollback it causes.
