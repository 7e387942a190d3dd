/** One browser tab against the session server: the shared refresh promise, the stored
    token, and requests that are answered 401.  Network and server steps interleave
    freely with the tab's own. */
module BrowserRefresh {
  import opened Wrappers
  import opened SlidingWindow
  import Sessions

  type Token = Sessions.Token

  // ---------------------------------------------------------------- the tab

  /** `refreshPromise`: absent, waiting for a call, or settled by its handlers but not
      yet reset by `finally`. */
  datatype Promise = NoPromise | Pending(call: nat) | Settled(call: nat)

  /** The tokens are stored and cleared together, so one optional value stands for both. */
  datatype Tab = Tab(stored: Option<Token>, promise: Promise)

  /** What `refreshAccessToken` does at once. */
  datatype Joined = Nothing | Joins(call: nat) | Starts(t: Token)

  function RefreshAccessToken(tab: Tab): Joined {
    if tab.stored.None? then Nothing
    else match tab.promise
      case NoPromise => Starts(tab.stored.value)
      case Pending(c) => Joins(c)
      case Settled(c) => Joins(c)
  }

  class ApiClient {
    var stored: Option<Token>
    var refreshPromise: Promise

    constructor ()
      ensures State() == Tab(None, NoPromise)
    {
      stored, refreshPromise := None, NoPromise;
    }

    function State(): Tab
      reads this
    {
      Tab(stored, refreshPromise)
    }

    method StoreAuthSession(t: Token)
      modifies this
      ensures State() == old(State()).(stored := Some(t))
    {
      stored := Some(t);
    }

    method ClearAuthSession()
      modifies this
      ensures State() == old(State()).(stored := None)
    {
      stored := None;
    }

    /** `newCall` is the identity of the request to be sent, if one is. */
    method JoinRefresh(newCall: nat) returns (r: Joined)
      modifies this
      ensures r == RefreshAccessToken(old(State()))
      ensures State() == if r.Starts? then old(State()).(promise := Pending(newCall)) else old(State())
    {
      if stored.None? {
        return Nothing;
      }
      if refreshPromise.NoPromise? {
        refreshPromise := Pending(newCall);
        return Starts(stored.value);
      }
      r := Joins(refreshPromise.call);
    }

    /** The `then` and `catch` handlers of the refresh call. */
    method SettleRefresh(answer: Option<Token>)
      requires refreshPromise.Pending?
      modifies this
      ensures State() == Tab(answer, Settled(old(refreshPromise.call)))
    {
      if answer.Some? {
        StoreAuthSession(answer.value);
      } else {
        ClearAuthSession();
      }
      refreshPromise := Settled(refreshPromise.call);
    }

    method FinallyRefresh()
      modifies this
      ensures State() == old(State()).(promise := NoPromise)
    {
      refreshPromise := NoPromise;
    }
  }

  // ---------------------------------------------------------------- calls and requests

  datatype Progress = OnWire | Answered(t: Token) | Refused

  /** A call of /auth/refresh.  It is open until the tab has seen its outcome; a call
      given up for lost may still reach the server. */
  datatype Call = Call(t: Token, progress: Progress, open: bool)

  datatype Phase = InFlight | AwaitsRefresh(call: nat) | Done

  /** An API request: `_retry`, the number of times it was sent, and where it is. */
  datatype Request = Request(authRoute: bool, retried: bool, sends: nat, phase: Phase)

  /** A refresh call that was started, and whether its token had been rotated by then. */
  datatype Presented = Presented(token: nat, spent: bool)

  datatype World = World(
    tab: Tab,
    calls: map<nat, Call>,
    nextCall: nat,
    succeeded: set<nat>,
    requests: map<nat, Request>,
    offers: set<Token>,
    mine: set<nat>,
    presented: History<Presented>,
    db: Sessions.Db)

  datatype Step =
    | Send(r: nat, authRoute: bool)
    | Unauthorized(r: nat)
    | Finished(r: nat)
    | Resume(r: nat)
    | ServeRefresh(call: nat, at: int)
    | DeliverRefresh(call: nat)
    | LoseRefresh(call: nat)
    | FinallyReset
    | ServeLogin(user: int, at: int)
    | StoreLogin(t: Token)
    | Clear
    | Reload
    | ServeOther(request: Sessions.Request)

  /** Rotated by an earlier refresh. */
  predicate Rotated(db: Sessions.Db, id: nat) {
    id in db.blacklist && db.blacklist[id].Rotation?
  }

  /** A step that is not possible does nothing. */
  function Next(w: World, step: Step): World {
    match step
    case Send(r, authRoute) =>
      if r in w.requests then w else w.(requests := w.requests[r := Request(authRoute, false, 1, InFlight)])
    case Unauthorized(r) => OnUnauthorized(w, r)
    case Finished(r) =>
      if r !in w.requests || !w.requests[r].phase.InFlight? then w
      else w.(requests := w.requests[r := w.requests[r].(phase := Done)])
    case Resume(r) => OnResume(w, r)
    case ServeRefresh(c, now) => OnServeRefresh(w, c, now)
    case DeliverRefresh(c) =>
      if w.tab.promise != Pending(c) || c !in w.calls || w.calls[c].progress.OnWire? then w
      else OnSettle(w, c, if w.calls[c].progress.Answered? then Some(w.calls[c].progress.t) else None)
    case LoseRefresh(c) =>
      if w.tab.promise != Pending(c) || c !in w.calls then w else OnSettle(w, c, None)
    case FinallyReset =>
      if w.tab.promise.Settled? then w.(tab := w.tab.(promise := NoPromise)) else w
    case ServeLogin(user, now) =>
      var o := Sessions.SignIn(w.db, user, now);
      if o.Rejected? then w
      else w.(db := o.db, offers := w.offers + {o.token.value}, mine := w.mine + {o.token.value.id})
    case StoreLogin(t) =>
      if t in w.offers then w.(tab := w.tab.(stored := Some(t)), offers := w.offers - {t}) else w
    case Clear => w.(tab := w.tab.(stored := None))
    case Reload => OnReload(w)
    case ServeOther(request) =>
      if request.Refreshes? && request.t.id in w.mine then w
      else w.(db := Sessions.Settled(w.db, Sessions.Handle(w.db, request)))
  }

  /** The response interceptor, up to its await. */
  function OnUnauthorized(w: World, r: nat): World {
    if r !in w.requests || !w.requests[r].phase.InFlight? then w
    else
      var q := w.requests[r];
      if q.retried || q.authRoute then w.(requests := w.requests[r := q.(phase := Done)])
      else
        match RefreshAccessToken(w.tab)
        case Nothing => w.(requests := w.requests[r := q.(retried := true, phase := Done)])
        case Joins(c) => w.(requests := w.requests[r := q.(retried := true, phase := AwaitsRefresh(c))])
        case Starts(t) =>
          w.(requests := w.requests[r := q.(retried := true, phase := AwaitsRefresh(w.nextCall))],
             tab := w.tab.(promise := Pending(w.nextCall)),
             calls := w.calls[w.nextCall := Call(t, OnWire, true)],
             nextCall := w.nextCall + 1,
             presented := Then(w.presented, Presented(t.id, Rotated(w.db, t.id))))
  }

  /** The rest of the interceptor once the refresh is over: replay, or drop the session. */
  function OnResume(w: World, r: nat): World {
    if r !in w.requests || !w.requests[r].phase.AwaitsRefresh? then w
    else
      var q := w.requests[r];
      var c := q.phase.call;
      if w.tab.promise == Pending(c) || w.tab.promise == Settled(c) then w
      else if c in w.succeeded then w.(requests := w.requests[r := q.(sends := q.sends + 1, phase := InFlight)])
      else w.(requests := w.requests[r := q.(phase := Done)], tab := w.tab.(stored := None))
  }

  /** The server handles a refresh call that reached it, seen or given up by the tab. */
  function OnServeRefresh(w: World, c: nat, now: int): World {
    if c !in w.calls || !w.calls[c].progress.OnWire? then w
    else
      var o := Sessions.Refresh(w.db, w.calls[c].t, now);
      if o.Rejected? then w.(calls := w.calls[c := w.calls[c].(progress := Refused)])
      else
        w.(db := o.db,
           calls := w.calls[c := w.calls[c].(progress := Answered(o.token.value))],
           mine := w.mine + {o.token.value.id})
  }

  function OnSettle(w: World, c: nat, answer: Option<Token>): World
    requires c in w.calls
  {
    w.(tab := Tab(answer, Settled(c)),
       calls := w.calls[c := w.calls[c].(open := false)],
       succeeded := if answer.Some? then w.succeeded + {c} else w.succeeded)
  }

  /** The page is loaded anew: the stored token stays, the promise and the requests are gone, and
      the outcome of a call that is still on its way is seen by nobody. */
  function OnReload(w: World): World {
    w.(tab := w.tab.(promise := NoPromise),
       calls := map c | c in w.calls :: w.calls[c].(open := false),
       requests := map r | r in w.requests :: w.requests[r].(phase := Done))
  }

  function Run(w: World, steps: History<Step>): World {
    match steps
    case Start => w
    case Then(before, step) => Next(Run(w, before), step)
  }

  /** The page is opened, with the token that an earlier visit stored or with none. */
  function Initial(db: Sessions.Db, stored: Option<Token>): World {
    World(Tab(stored, NoPromise), map[], 0, {}, map[], {}, if stored.Some? then {stored.value.id} else {}, Start, db)
  }

  /** A token stored by an earlier visit was issued, and no refresh has rotated it. */
  predicate Opens(db: Sessions.Db, stored: Option<Token>) {
    stored.Some? ==> stored.value.id < db.nextToken && !Rotated(db, stored.value.id)
  }

  /** The page is reloaded only when no refresh is in flight. */
  predicate ReloadsAtRest(w: World, steps: History<Step>) {
    steps.Then? ==>
      && ReloadsAtRest(w, steps.before)
      && (steps.latest.Reload? ==> !Run(w, steps.before).tab.promise.Pending?)
  }

  // ---------------------------------------------------------------- the invariant

  /** Calls on the wire that the server refuses from `since` on. */
  datatype Doomed = Doomed(calls: set<nat>, since: int)

  const NONE_DOOMED := Doomed({}, 0)

  ghost predicate DoomedOk(w: World, lost: Doomed) {
    forall c :: c in lost.calls ==>
      && c in w.calls && w.calls[c].t.id < w.db.nextToken
      && (w.calls[c].progress.OnWire? ==> Sessions.Refresh(w.db, w.calls[c].t, lost.since).Rejected?)
  }

  /** The server handles nothing before `now`. */
  predicate NotBefore(step: Step, now: int) {
    match step
    case ServeRefresh(_, at) => now <= at
    case ServeLogin(_, at) => now <= at
    case ServeOther(request) => now <= request.at
    case _ => true
  }

  /** Given to this tab, not rotated, and not in the hands of a call that could rotate it. */
  ghost predicate Clean(w: World, id: nat, lost: Doomed) {
    && id in w.mine && !Rotated(w.db, id)
    && forall c :: c in w.calls && w.calls[c].progress.OnWire? && c !in lost.calls ==> w.calls[c].t.id != id
  }

  /** The stored token is absent, unrotated, or the one in flight. */
  ghost predicate StoredOk(w: World, lost: Doomed) {
    w.tab.stored.Some? ==>
      || Clean(w, w.tab.stored.value.id, lost)
      || (w.tab.promise.Pending? && w.tab.promise.call in w.calls && w.calls[w.tab.promise.call].t == w.tab.stored.value)
  }

  ghost predicate CallOk(w: World, c: nat, lost: Doomed) {
    c in w.calls ==>
      && c < w.nextCall
      && w.calls[c].t.id in w.mine
      && (w.calls[c].open ==> w.tab.promise == Pending(c))
      && (w.calls[c].open && w.calls[c].progress.Answered? ==> Held(w, w.calls[c].progress.t, lost))
  }

  /** A clean token on its way to the tab by a refresh answer. */
  ghost predicate Held(w: World, t: Token, lost: Doomed) {
    && Clean(w, t.id, lost)
    && (w.tab.stored.Some? ==> w.tab.stored.value.id != t.id)
    && (forall o :: o in w.offers ==> o.id != t.id)
  }

  ghost predicate OfferOk(w: World, t: Token, lost: Doomed) {
    t in w.offers ==>
      && Clean(w, t.id, lost)
      && (w.tab.stored.Some? ==> w.tab.stored.value.id != t.id)
      && (forall o :: o in w.offers && o.id == t.id ==> o == t)
  }

  ghost predicate RequestOk(q: Request) {
    && q.sends <= 2
    && (!q.retried ==> q.sends == 1 && !q.phase.AwaitsRefresh?)
    && (q.phase.AwaitsRefresh? ==> q.sends == 1)
  }

  ghost predicate NeverSpent(presented: History<Presented>) {
    presented.Then? ==> !presented.latest.spent && NeverSpent(presented.before)
  }

  ghost predicate Inv(w: World, lost: Doomed) {
    && Sessions.Inv(w.db)
    && DoomedOk(w, lost)
    && (forall id :: id in w.mine ==> id < w.db.nextToken)
    && StoredOk(w, lost)
    && (w.tab.promise.Pending? ==> w.tab.promise.call in w.calls && w.calls[w.tab.promise.call].open)
    && (forall c :: CallOk(w, c, lost))
    && (forall t :: OfferOk(w, t, lost))
    && (forall r :: r in w.requests ==> RequestOk(w.requests[r]))
    && NeverSpent(w.presented)
  }

  /** Only an accepted refresh of a token marks it rotated. */
  lemma RotationIsByRefresh(db: Sessions.Db, r: Sessions.Request, id: nat)
    ensures var db' := Sessions.Settled(db, Sessions.Handle(db, r));
            && db.nextToken <= db'.nextToken
            && (Rotated(db', id) ==> Rotated(db, id) || (r.Refreshes? && r.t.id == id))
  {
  }

  /** A step that leaves the calls alone and rotates nothing of the tab's keeps clean tokens clean. */
  lemma CleanStays(w: World, w': World, id: nat, lost: Doomed)
    requires Clean(w, id, lost)
    requires w.mine <= w'.mine && (Rotated(w'.db, id) ==> Rotated(w.db, id))
    requires forall c :: c in w'.calls && w'.calls[c].progress.OnWire? ==>
               (c in w.calls && w.calls[c].progress.OnWire? && w'.calls[c].t == w.calls[c].t) || w'.calls[c].t.id != id
    ensures Clean(w', id, lost)
  {
  }

  /** A request that is refused from some time on stays so, whatever the server handles. */
  lemma DoomedStays(w: World, w': World, r: Sessions.Request, lost: Doomed)
    requires Sessions.Inv(w.db) && DoomedOk(w, lost) && w'.db == Sessions.Settled(w.db, Sessions.Handle(w.db, r))
    requires forall c :: c in w.calls ==>
               c in w'.calls && w'.calls[c].t == w.calls[c].t && (w'.calls[c].progress.OnWire? ==> w.calls[c].progress.OnWire?)
    ensures DoomedOk(w', lost)
  {
    RotationIsByRefresh(w.db, r, 0);
    forall c | c in lost.calls && w'.calls[c].progress.OnWire?
      ensures Sessions.Refresh(w'.db, w'.calls[c].t, lost.since).Rejected?
    {
      Sessions.AcceptanceFades(w.db, r, w.calls[c].t, lost.since);
    }
  }

  lemma RequestStepKeepsInv(w: World, step: Step, lost: Doomed)
    requires Inv(w, lost) && (step.Send? || step.Finished? || step.Resume?)
    ensures Inv(Next(w, step), lost)
  {
    var w' := Next(w, step);
    assert w'.calls == w.calls && w'.db == w.db && w'.mine == w.mine && w'.offers == w.offers;
    forall id | Clean(w, id, lost) ensures Clean(w', id, lost) { CleanStays(w, w', id, lost); }
    forall c ensures CallOk(w', c, lost) { assert CallOk(w, c, lost); }
    forall t ensures OfferOk(w', t, lost) { assert OfferOk(w, t, lost); }
    forall r | r in w'.requests ensures RequestOk(w'.requests[r]) {}
  }

  lemma TabStepKeepsInv(w: World, step: Step, lost: Doomed)
    requires Inv(w, lost) && (step.FinallyReset? || step.Clear? || step.Reload?)
    requires step.Reload? ==> !w.tab.promise.Pending?
    ensures Inv(Next(w, step), lost)
  {
    var w' := Next(w, step);
    forall id | Clean(w, id, lost) ensures Clean(w', id, lost) { CleanStays(w, w', id, lost); }
    forall c ensures CallOk(w', c, lost) { assert CallOk(w, c, lost); }
    forall t ensures OfferOk(w', t, lost) { assert OfferOk(w, t, lost); }
  }

  lemma StoreLoginKeepsInv(w: World, t: Token, lost: Doomed)
    requires Inv(w, lost)
    ensures Inv(Next(w, StoreLogin(t)), lost)
  {
    var w' := Next(w, StoreLogin(t));
    assert OfferOk(w, t, lost);
    forall id | Clean(w, id, lost) ensures Clean(w', id, lost) { CleanStays(w, w', id, lost); }
    forall c ensures CallOk(w', c, lost) { assert CallOk(w, c, lost); }
    forall o ensures OfferOk(w', o, lost) { assert OfferOk(w, o, lost); }
  }

  lemma SettleKeepsInv(w: World, step: Step, lost: Doomed)
    requires Inv(w, lost) && (step.DeliverRefresh? || step.LoseRefresh?)
    ensures Inv(Next(w, step), lost)
  {
    var w' := Next(w, step);
    var c := step.call;
    assert CallOk(w, c, lost);
    if w' != w {
      forall id | Clean(w, id, lost) ensures Clean(w', id, lost) { CleanStays(w, w', id, lost); }
      forall k ensures CallOk(w', k, lost) { assert CallOk(w, k, lost); }
      forall o ensures OfferOk(w', o, lost) { assert OfferOk(w, o, lost); }
    }
  }

  lemma UnauthorizedKeepsInv(w: World, r: nat, lost: Doomed)
    requires Inv(w, lost)
    ensures Inv(Next(w, Unauthorized(r)), lost)
  {
    var w' := Next(w, Unauthorized(r));
    assert CallOk(w, w.nextCall, lost);
    if w'.calls != w.calls {
      var t := w.tab.stored.value;
      assert Clean(w, t.id, lost) && w.tab.promise.NoPromise?;
      forall id | Clean(w, id, lost) && id != t.id ensures Clean(w', id, lost) { CleanStays(w, w', id, lost); }
    } else {
      forall id | Clean(w, id, lost) ensures Clean(w', id, lost) { CleanStays(w, w', id, lost); }
    }
    forall c ensures CallOk(w', c, lost) { assert CallOk(w, c, lost); }
    forall o ensures OfferOk(w', o, lost) { assert OfferOk(w, o, lost); }
  }

  lemma StoredIsMine(w: World, lost: Doomed)
    requires Inv(w, lost) && w.tab.stored.Some?
    ensures w.tab.stored.value.id in w.mine
  {
    if w.tab.promise.Pending? {
      assert CallOk(w, w.tab.promise.call, lost);
    }
  }

  lemma RefusedLater(db: Sessions.Db, t: Token, now: int, later: int)
    requires now <= later && Sessions.Refresh(db, t, now).Rejected?
    ensures Sessions.Refresh(db, t, later).Rejected?
  {
  }

  lemma ServeRefreshKeepsClean(w: World, c: nat, now: int, id: nat, lost: Doomed)
    requires Inv(w, lost) && Clean(w, id, lost) && (c in lost.calls ==> lost.since <= now)
    ensures Clean(Next(w, ServeRefresh(c, now)), id, lost)
  {
    var w' := Next(w, ServeRefresh(c, now));
    if w' != w {
      if c in lost.calls { RefusedLater(w.db, w.calls[c].t, lost.since, now); }
      RotationIsByRefresh(w.db, Sessions.Refreshes(w.calls[c].t, now), id);
      CleanStays(w, w', id, lost);
    }
  }

  /** The token of an answer is new: nobody holds it, and no call presents it. */
  lemma AnswerIsClean(w: World, c: nat, now: int, lost: Doomed)
    requires Inv(w, lost) && c in w.calls && w.calls[c].progress.OnWire?
    ensures var w' := Next(w, ServeRefresh(c, now));
            w'.calls[c].progress.Answered? ==> w'.calls[c].progress.t.id == w.db.nextToken && Held(w', w'.calls[c].progress.t, lost)
  {
    var w' := Next(w, ServeRefresh(c, now));
    assert Sessions.RowOk(w.db, w.db.nextToken);
    forall k | k in w'.calls ensures w'.calls[k].t.id != w.db.nextToken { assert CallOk(w, k, lost); }
    forall o | o in w.offers ensures o.id != w.db.nextToken { assert OfferOk(w, o, lost); }
    if w.tab.stored.Some? {
      StoredIsMine(w, lost);
    }
  }

  lemma ServeRefreshKeepsCalls(w: World, c: nat, now: int, lost: Doomed)
    requires Inv(w, lost) && (c in lost.calls ==> lost.since <= now)
    ensures forall k :: CallOk(Next(w, ServeRefresh(c, now)), k, lost)
  {
    var w' := Next(w, ServeRefresh(c, now));
    forall k ensures CallOk(w', k, lost) {
      assert CallOk(w, k, lost);
      if w' != w {
        AnswerIsClean(w, c, now, lost);
        forall id | Clean(w, id, lost) ensures Clean(w', id, lost) { ServeRefreshKeepsClean(w, c, now, id, lost); }
      }
    }
  }

  lemma ServeRefreshKeepsInv(w: World, c: nat, now: int, lost: Doomed)
    requires Inv(w, lost) && (c in lost.calls ==> lost.since <= now)
    ensures Inv(Next(w, ServeRefresh(c, now)), lost)
  {
    var w' := Next(w, ServeRefresh(c, now));
    ServeRefreshKeepsCalls(w, c, now, lost);
    if w' != w {
      assert CallOk(w, c, lost);
      Sessions.HandleKeepsInv(w.db, Sessions.Refreshes(w.calls[c].t, now));
      DoomedStays(w, w', Sessions.Refreshes(w.calls[c].t, now), lost);
      forall id | Clean(w, id, lost) ensures Clean(w', id, lost) { ServeRefreshKeepsClean(w, c, now, id, lost); }
      forall o ensures OfferOk(w', o, lost) { assert OfferOk(w, o, lost); }
    }
  }

  lemma ServeLoginKeepsInv(w: World, user: int, now: int, lost: Doomed)
    requires Inv(w, lost)
    ensures Inv(Next(w, ServeLogin(user, now)), lost)
  {
    var w' := Next(w, ServeLogin(user, now));
    if w' != w {
      Sessions.HandleKeepsInv(w.db, Sessions.SignsIn(user, now));
      DoomedStays(w, w', Sessions.SignsIn(user, now), lost);
      assert Sessions.RowOk(w.db, w.db.nextToken);
      forall id | Clean(w, id, lost) ensures Clean(w', id, lost) {
        RotationIsByRefresh(w.db, Sessions.SignsIn(user, now), id);
        CleanStays(w, w', id, lost);
      }
      assert Clean(w', w.db.nextToken, lost) by {
        forall k | k in w.calls ensures w.calls[k].t.id != w.db.nextToken { assert CallOk(w, k, lost); }
      }
      forall o | o in w.offers ensures o.id != w.db.nextToken { assert OfferOk(w, o, lost); }
      if w.tab.stored.Some? {
        StoredIsMine(w, lost);
      }
      forall k ensures CallOk(w', k, lost) { assert CallOk(w, k, lost); }
      forall o ensures OfferOk(w', o, lost) { assert OfferOk(w, o, lost); }
    }
  }

  lemma ServeOtherKeepsInv(w: World, request: Sessions.Request, lost: Doomed)
    requires Inv(w, lost)
    ensures Inv(Next(w, ServeOther(request)), lost)
  {
    var w' := Next(w, ServeOther(request));
    if w' != w {
      Sessions.HandleKeepsInv(w.db, request);
      DoomedStays(w, w', request, lost);
      RotationIsByRefresh(w.db, request, 0);
      forall id | Clean(w, id, lost) ensures Clean(w', id, lost) {
        RotationIsByRefresh(w.db, request, id);
        CleanStays(w, w', id, lost);
      }
      forall k ensures CallOk(w', k, lost) { assert CallOk(w, k, lost); }
      forall o ensures OfferOk(w', o, lost) { assert OfferOk(w, o, lost); }
    }
  }

  lemma NextKeepsInv(w: World, step: Step, lost: Doomed)
    requires Inv(w, lost) && (step.Reload? ==> !w.tab.promise.Pending?)
    requires lost.calls == {} || NotBefore(step, lost.since)
    ensures Inv(Next(w, step), lost)
  {
    match step
    case Send(_, _) => RequestStepKeepsInv(w, step, lost);
    case Finished(_) => RequestStepKeepsInv(w, step, lost);
    case Resume(_) => RequestStepKeepsInv(w, step, lost);
    case Unauthorized(r) => UnauthorizedKeepsInv(w, r, lost);
    case ServeRefresh(c, now) => ServeRefreshKeepsInv(w, c, now, lost);
    case DeliverRefresh(_) => SettleKeepsInv(w, step, lost);
    case LoseRefresh(_) => SettleKeepsInv(w, step, lost);
    case FinallyReset => TabStepKeepsInv(w, step, lost);
    case Clear => TabStepKeepsInv(w, step, lost);
    case Reload => TabStepKeepsInv(w, step, lost);
    case ServeLogin(user, now) => ServeLoginKeepsInv(w, user, now, lost);
    case StoreLogin(t) => StoreLoginKeepsInv(w, t, lost);
    case ServeOther(request) => ServeOtherKeepsInv(w, request, lost);
  }

  predicate ServedFrom(steps: History<Step>, now: int) {
    steps.Then? ==> ServedFrom(steps.before, now) && NotBefore(steps.latest, now)
  }

  lemma {:induction false} ContinueKeepsInv(w: World, steps: History<Step>, lost: Doomed)
    requires Inv(w, lost) && ReloadsAtRest(w, steps) && (lost.calls == {} || ServedFrom(steps, lost.since))
    ensures Inv(Run(w, steps), lost)
  {
    if steps.Then? {
      ContinueKeepsInv(w, steps.before, lost);
      NextKeepsInv(Run(w, steps.before), steps.latest, lost);
    }
  }

  lemma RunKeepsInv(db: Sessions.Db, stored: Option<Token>, steps: History<Step>)
    requires Sessions.Inv(db) && Opens(db, stored) && ReloadsAtRest(Initial(db, stored), steps)
    ensures Inv(Run(Initial(db, stored), steps), NONE_DOOMED)
  {
    ContinueKeepsInv(Initial(db, stored), steps, NONE_DOOMED);
  }

  // ---------------------------------------------------------------- the properties

  /** In every interleaving, with lost responses, logins, logouts, revocations, and reloads while no
      refresh is in flight: the tab never starts a refresh with a token that an earlier refresh
      rotated, at most one refresh call is open, and no request is sent more than twice. */
  lemma TabIsSafe(db: Sessions.Db, stored: Option<Token>, steps: History<Step>)
    requires Sessions.Inv(db) && Opens(db, stored) && ReloadsAtRest(Initial(db, stored), steps)
    ensures var w := Run(Initial(db, stored), steps);
            && NeverSpent(w.presented)
            && (forall c, d :: c in w.calls && d in w.calls && w.calls[c].open && w.calls[d].open ==> c == d)
            && (forall r :: r in w.requests ==> w.requests[r].sends <= 2 && (w.requests[r].sends == 2 ==> w.requests[r].retried))
            && StoredOk(w, NONE_DOOMED)
  {
    RunKeepsInv(db, stored, steps);
    var w := Run(Initial(db, stored), steps);
    forall c, d | c in w.calls && d in w.calls && w.calls[c].open && w.calls[d].open ensures c == d {
      assert CallOk(w, c, NONE_DOOMED) && CallOk(w, d, NONE_DOOMED);
    }
    forall r | r in w.requests ensures w.requests[r].sends <= 2 && (w.requests[r].sends == 2 ==> w.requests[r].retried) {
      assert RequestOk(w.requests[r]);
    }
  }

  /** A page whose request was refused and whose refresh the server has granted. */
  lemma RefreshGranted(db: Sessions.Db, t: Token, now: int)
    requires Sessions.Inv(db) && Sessions.Refresh(db, t, now).Accepted?
    ensures
      var w := Run(Initial(db, Some(t)), Then(Then(Then(Start, Send(1, false)), Unauthorized(1)), ServeRefresh(0, now)));
      Rotated(w.db, t.id) && w.tab.stored == Some(t) && w.requests.Keys == {1}
  {
    var start := Initial(db, Some(t));
    var sent := Then(Start, Send(1, false));
    var refused := Then(sent, Unauthorized(1));
    assert Sessions.RowOk(db, t.id) && Sessions.RowOk(db, db.nextToken);
    assert Run(start, sent) == start.(requests := map[1 := Request(false, false, 1, InFlight)]);
    assert Run(start, refused).calls == map[][0 := Call(t, OnWire, true)] && Run(start, refused).tab.stored == Some(t);
    assert Run(start, refused).requests.Keys == {1} && Run(start, refused).db == db;
  }

  /** A page reloaded while its refresh is in flight presents the rotated token once more. */
  lemma ReloadPresentsSpent(db: Sessions.Db, t: Token, now: int)
    requires Sessions.Inv(db) && Sessions.Refresh(db, t, now).Accepted?
    ensures
      var granted := Then(Then(Then(Start, Send(1, false)), Unauthorized(1)), ServeRefresh(0, now));
      var steps := Then(Then(Then(granted, Reload), Send(2, false)), Unauthorized(2));
      !NeverSpent(Run(Initial(db, Some(t)), steps).presented)
  {
    var granted := Then(Then(Then(Start, Send(1, false)), Unauthorized(1)), ServeRefresh(0, now));
    var w := Run(Initial(db, Some(t)), granted);
    RefreshGranted(db, t, now);
    PresentsStored(w, t);
    assert Run(Initial(db, Some(t)), Then(granted, Reload)) == Next(w, Reload);
    assert Run(Initial(db, Some(t)), Then(Then(granted, Reload), Send(2, false))) == Next(Next(w, Reload), Send(2, false));
  }

  lemma PresentsStored(w: World, t: Token)
    requires w.tab.stored == Some(t) && Rotated(w.db, t.id) && 2 !in w.requests
    ensures !NeverSpent(Next(Next(Next(w, Reload), Send(2, false)), Unauthorized(2)).presented)
  {
    var loaded := Next(w, Reload);
    var sent := Next(loaded, Send(2, false));
    assert sent.requests[2] == Request(false, false, 1, InFlight) && sent.tab == Tab(Some(t), NoPromise);
  }

  /** Whatever is served from `now` on, and with reloads at rest, no refresh starts with a rotated token. */
  ghost predicate StaysUnspent(w: World, now: int) {
    forall steps :: ReloadsAtRest(w, steps) && ServedFrom(steps, now) ==> NeverSpent(Run(w, steps).presented)
  }

  /** The stored token is rotated, or a call on the wire can still rotate it. */
  predicate StoredInDanger(w: World, now: int) {
    && w.tab.stored.Some?
    && (|| Rotated(w.db, w.tab.stored.value.id)
        || exists c :: c in w.calls && w.calls[c].progress.OnWire? && w.calls[c].t.id == w.tab.stored.value.id
                       && Sessions.Refresh(w.db, w.calls[c].t, now).Accepted?)
  }

  lemma SafeReloadKeepsInv(w: World, now: int) returns (lost: Doomed)
    requires Inv(w, NONE_DOOMED) && !StoredInDanger(w, now)
    ensures lost.since == now && Inv(Next(w, Reload), lost)
  {
    var w' := Next(w, Reload);
    var refused := set c | c in w.calls && w.calls[c].progress.OnWire? && Sessions.Refresh(w.db, w.calls[c].t, now).Rejected?;
    lost := Doomed(refused, now);
    forall id | Clean(w, id, NONE_DOOMED) ensures Clean(w', id, lost) {}
    if w.tab.stored.Some? {
      StoredIsMine(w, NONE_DOOMED);
    }
    forall c ensures CallOk(w', c, lost) { assert CallOk(w, c, NONE_DOOMED); }
    forall c | c in lost.calls ensures w.calls[c].t.id < w.db.nextToken { assert CallOk(w, c, NONE_DOOMED); }
    forall t ensures OfferOk(w', t, lost) { assert OfferOk(w, t, NONE_DOOMED); }
  }

  /** A page that is loaded with a rotated token presents it with its first refused request. */
  lemma RotatedIsPresented(w: World, steps: History<Step>, r: nat)
    requires var w' := Run(w, steps);
             r !in w'.requests && w'.tab.promise.NoPromise? && w'.tab.stored.Some? && Rotated(w'.db, w'.tab.stored.value.id)
    ensures !NeverSpent(Run(w, Then(Then(steps, Send(r, false)), Unauthorized(r))).presented)
  {
    var sent := Next(Run(w, steps), Send(r, false));
    assert Run(w, Then(steps, Send(r, false))) == sent;
    assert sent.requests[r] == Request(false, false, 1, InFlight);
  }

  /** The server handles a call that the reload has left on the wire. */
  lemma LeftOnWireRotates(w: World, c: nat, now: int)
    requires c in w.calls && w.calls[c].progress.OnWire? && Sessions.Refresh(w.db, w.calls[c].t, now).Accepted?
    ensures var w' := Next(Next(w, Reload), ServeRefresh(c, now));
            Rotated(w'.db, w.calls[c].t.id) && w'.tab == Tab(w.tab.stored, NoPromise) && w'.requests.Keys == w.requests.Keys
  {
  }

  lemma DangerousReloadPresents(w: World, now: int)
    requires StoredInDanger(w, now)
    ensures !StaysUnspent(Next(w, Reload), now)
  {
    var w' := Next(w, Reload);
    var r := AboveAll(w.requests.Keys);
    var served := Start;
    assert Run(w', Start) == w' && w'.requests.Keys == w.requests.Keys;
    if !Rotated(w.db, w.tab.stored.value.id) {
      var c :| c in w.calls && w.calls[c].progress.OnWire? && w.calls[c].t.id == w.tab.stored.value.id
               && Sessions.Refresh(w.db, w.calls[c].t, now).Accepted?;
      LeftOnWireRotates(w, c, now);
      served := Then(Start, ServeRefresh(c, now));
      assert Run(w', served) == Next(w', ServeRefresh(c, now));
    }
    RotatedIsPresented(w', served, r);
    var sent := Then(served, Send(r, false));
    var steps := Then(sent, Unauthorized(r));
    assert ReloadsAtRest(w', served) && ServedFrom(served, now);
    assert ReloadsAtRest(w', sent) && ServedFrom(sent, now);
    assert ReloadsAtRest(w', steps) && ServedFrom(steps, now);
  }

  /** After a reload no refresh ever starts with a rotated token, as long as further reloads happen at
      rest, if and only if the stored token is neither rotated nor carried by a call on the wire that
      the server would grant now. */
  lemma ReloadIsExact(db: Sessions.Db, stored: Option<Token>, steps: History<Step>, now: int)
    requires Sessions.Inv(db) && Opens(db, stored) && ReloadsAtRest(Initial(db, stored), steps)
    ensures var w := Run(Initial(db, stored), steps);
            StaysUnspent(Next(w, Reload), now) <==> !StoredInDanger(w, now)
  {
    var w := Run(Initial(db, stored), steps);
    RunKeepsInv(db, stored, steps);
    if StoredInDanger(w, now) {
      DangerousReloadPresents(w, now);
    } else {
      var lost := SafeReloadKeepsInv(w, now);
      forall later | ReloadsAtRest(Next(w, Reload), later) && ServedFrom(later, now)
        ensures NeverSpent(Run(Next(w, Reload), later).presented)
      {
        ContinueKeepsInv(Next(w, Reload), later, lost);
      }
    }
  }

  /** The step makes the request wait for a refresh. */
  predicate StartsWaiting(w: World, step: Step, r: nat) {
    && step == Unauthorized(r) && r in w.requests && w.requests[r].phase.InFlight?
    && r in Next(w, step).requests && Next(w, step).requests[r].phase.AwaitsRefresh?
  }

  /** How often a request waited for a refresh. */
  function Waits(w: World, steps: History<Step>, r: nat): nat {
    match steps
    case Start => 0
    case Then(before, step) => Waits(w, before, r) + if StartsWaiting(Run(w, before), step, r) then 1 else 0
  }

  ghost predicate WaitsOk(w: World, r: nat, waits: nat) {
    if r !in w.requests then waits == 0
    else
      var q := w.requests[r];
      && q.sends <= 1 + waits <= 2
      && (!q.retried ==> q.sends == 1 && waits == 0)
      && (q.phase.AwaitsRefresh? ==> q.sends == 1 == waits)
  }

  lemma NextKeepsWaits(w: World, step: Step, r: nat, waits: nat)
    requires WaitsOk(w, r, waits)
    ensures WaitsOk(Next(w, step), r, waits + if StartsWaiting(w, step, r) then 1 else 0)
  {
  }

  /** Over any run, reloads included, a request waits for at most one refresh, and is replayed only
      after one. */
  lemma {:induction false} WaitsForOneRefresh(db: Sessions.Db, stored: Option<Token>, steps: History<Step>, r: nat)
    ensures WaitsOk(Run(Initial(db, stored), steps), r, Waits(Initial(db, stored), steps, r))
    ensures Waits(Initial(db, stored), steps, r) <= 1
    ensures r in Run(Initial(db, stored), steps).requests ==>
              Run(Initial(db, stored), steps).requests[r].sends <= 1 + Waits(Initial(db, stored), steps, r)
  {
    if steps.Then? {
      WaitsForOneRefresh(db, stored, steps.before, r);
      NextKeepsWaits(Run(Initial(db, stored), steps.before), steps.latest, r, Waits(Initial(db, stored), steps.before, r));
    }
  }

  /** Requests refused while a refresh is open share it: they wait for the same call and none starts another. */
  lemma ConcurrentRefusalsShare(db: Sessions.Db, stored: Option<Token>, steps: History<Step>, c: nat, r: nat)
    requires Sessions.Inv(db) && Opens(db, stored) && ReloadsAtRest(Initial(db, stored), steps)
    requires var w := Run(Initial(db, stored), steps);
             && c in w.calls && w.calls[c].open && w.tab.stored.Some?
             && r in w.requests && w.requests[r].phase.InFlight? && !w.requests[r].retried && !w.requests[r].authRoute
    ensures var w := Run(Initial(db, stored), steps);
            var w' := Next(w, Unauthorized(r));
            w'.requests[r].phase == AwaitsRefresh(c) && w'.calls == w.calls && w'.presented == w.presented
  {
    RunKeepsInv(db, stored, steps);
    assert CallOk(Run(Initial(db, stored), steps), c, NONE_DOOMED);
  }

  // ---------------------------------------------------------------- a granted refresh is used

  /** The refresh call whose answer the tab stored. */
  predicate Grants(w: World, step: Step, c: nat) {
    step == DeliverRefresh(c) && w.tab.promise == Pending(c) && c in w.calls && w.calls[c].progress.Answered?
  }

  ghost predicate Granted(w: World, steps: History<Step>, c: nat) {
    steps.Then? && (Granted(w, steps.before, c) || Grants(Run(w, steps.before), steps.latest, c))
  }

  lemma {:induction false} SucceededIsGranted(db: Sessions.Db, stored: Option<Token>, steps: History<Step>, c: nat)
    ensures c in Run(Initial(db, stored), steps).succeeded <==> Granted(Initial(db, stored), steps, c)
  {
    if steps.Then? {
      SucceededIsGranted(db, stored, steps.before, c);
    }
  }

  /** Once the refresh that a request waits for is over, the request is sent again if the tab stored the
      answer of that call, and is given up, and the session dropped, if not. */
  lemma ReplayIsExact(db: Sessions.Db, stored: Option<Token>, steps: History<Step>, r: nat)
    requires var w := Run(Initial(db, stored), steps); r in w.requests && w.requests[r].phase.AwaitsRefresh?
    ensures
      var w := Run(Initial(db, stored), steps);
      var q, w' := w.requests[r], Next(w, Resume(r));
      var c := q.phase.call;
      if w.tab.promise == Pending(c) || w.tab.promise == Settled(c) then w' == w
      else
        && w'.requests.Keys == w.requests.Keys && (forall o :: o in w.requests && o != r ==> w'.requests[o] == w.requests[o])
        && if Granted(Initial(db, stored), steps, c) then
             w'.requests[r].phase == InFlight && w'.requests[r].sends == q.sends + 1 && w'.tab == w.tab
           else
             w'.requests[r].phase == Done && w'.requests[r].sends == q.sends && w'.tab.stored.None?
  {
    SucceededIsGranted(db, stored, steps, Run(Initial(db, stored), steps).requests[r].phase.call);
  }

  /** What a 401 does to a request: one to the login routes, one that was replayed, or one of a tab that
      stores no token is given up; any other waits for the refresh that is pending, or for one that is
      started with the stored token. */
  lemma RefusalIsExact(w: World, r: nat)
    requires r in w.requests && w.requests[r].phase.InFlight?
    ensures
      var q, w' := w.requests[r], Next(w, Unauthorized(r));
      && w'.requests.Keys == w.requests.Keys && (forall o :: o in w.requests && o != r ==> w'.requests[o] == w.requests[o])
      && w'.requests[r].sends == q.sends && w'.tab.stored == w.tab.stored && w'.db == w.db
      && if q.authRoute || q.retried || w.tab.stored.None? then
           w'.requests[r].phase == Done && w'.tab == w.tab && w'.calls == w.calls
         else if !w.tab.promise.NoPromise? then
           w'.requests[r].phase == AwaitsRefresh(w.tab.promise.call) && w'.requests[r].retried && w'.tab == w.tab && w'.calls == w.calls
         else
           && w'.requests[r].phase == AwaitsRefresh(w.nextCall) && w'.requests[r].retried
           && w'.tab.promise == Pending(w.nextCall) && w'.nextCall == w.nextCall + 1
           && w'.calls == w.calls[w.nextCall := Call(w.tab.stored.value, OnWire, true)]
  {
  }

  /** A login that the server grants is stored by the tab when its answer arrives, once, with a token that
      the server then exchanges until it expires. */
  lemma LoginIsStored(w: World, user: int, now: int, later: int)
    requires Sessions.Inv(w.db) && user in w.db.users
    ensures
      var t := Sessions.Token(w.db.nextToken, user, now + w.db.lifetime);
      var served := Next(w, ServeLogin(user, now));
      var w' := Next(served, StoreLogin(t));
      && t in served.offers && served.tab == w.tab && t.id in served.mine && w.mine <= served.mine
      && w'.tab == w.tab.(stored := Some(t)) && w'.offers == served.offers - {t} && w'.db == served.db
      && (Sessions.Refresh(w'.db, t, later).Accepted? <==> later < now + w.db.lifetime)
  {
    assert Sessions.RowOk(w.db, w.db.nextToken);
  }

  /** How a refresh ends for the tab: a lost answer and a refusal both end the session, an answer stores the
      new one, and one that the server has not given cannot arrive; then the promise is reset. */
  lemma OutcomesAreExact(w: World, c: nat)
    requires w.tab.promise == Pending(c) && c in w.calls
    ensures
      var lost, come := Next(w, LoseRefresh(c)), Next(w, DeliverRefresh(c));
      && lost.tab == Tab(None, Settled(c)) && !lost.calls[c].open && lost.succeeded == w.succeeded && lost.db == w.db
      && (match w.calls[c].progress
          case OnWire => come == w
          case Refused => come == lost
          case Answered(t) => come.tab == Tab(Some(t), Settled(c)) && !come.calls[c].open && c in come.succeeded)
      && Next(lost, FinallyReset).tab == Tab(None, NoPromise)
  {
  }

  /** Other requests reach the server as they are, but nobody else refreshes with the tab's tokens; and a
      request that is answered otherwise is over. */
  lemma OthersAreServed(w: World, request: Sessions.Request, r: nat)
    ensures var w' := Next(w, ServeOther(request));
            w' == (if request.Refreshes? && request.t.id in w.mine then w
                   else w.(db := Sessions.Settled(w.db, Sessions.Handle(w.db, request))))
    ensures r in w.requests && w.requests[r].phase.InFlight? ==>
              Next(w, Finished(r)).requests == w.requests[r := w.requests[r].(phase := Done)]
  {
  }

  /** The purpose of it all: a request refused in a tab at rest, whose stored token the server would
      exchange, is sent again with the session of the new token stored. */
  lemma RefusalIsRepaired(w: World, r: nat, now: int)
    requires r in w.requests && w.requests[r] == Request(false, false, 1, InFlight)
    requires w.tab.promise.NoPromise? && w.tab.stored.Some? && w.nextCall !in w.calls
    requires Sessions.Inv(w.db) && Sessions.Refresh(w.db, w.tab.stored.value, now).Accepted?
    ensures
      var c := w.nextCall;
      var asked := Next(Next(w, Unauthorized(r)), ServeRefresh(c, now));
      var w' := Next(Next(Next(asked, DeliverRefresh(c)), FinallyReset), Resume(r));
      && w'.requests[r] == Request(false, true, 2, InFlight)
      && w'.tab == Tab(Sessions.Refresh(w.db, w.tab.stored.value, now).token, NoPromise)
      && w'.tab.stored.Some? && w'.tab.stored != w.tab.stored
  {
    var c, t := w.nextCall, w.tab.stored.value;
    assert Sessions.RowOk(w.db, t.id);
    var refused := Next(w, Unauthorized(r));
    assert refused.calls[c] == Call(t, OnWire, true) && refused.tab.promise == Pending(c) && refused.db == w.db;
    assert refused.requests[r] == Request(false, true, 1, AwaitsRefresh(c));
    var served := Next(refused, ServeRefresh(c, now));
    assert served.calls[c].progress.Answered? && served.tab == refused.tab && served.requests == refused.requests;
    var delivered := Next(served, DeliverRefresh(c));
    assert delivered.tab.promise == Settled(c) && c in delivered.succeeded;
  }

  // ---------------------------------------------------------------- when a logout sticks

  predicate WithoutLogin(steps: History<Step>) {
    steps.Then? ==> !steps.latest.StoreLogin? && WithoutLogin(steps.before)
  }

  /** Once the tab has cleared its tokens, it stores none until a login, whatever is served from `now` on. */
  ghost predicate LogoutSticks(w: World, now: int) {
    forall steps :: WithoutLogin(steps) && ServedFrom(steps, now) ==> Run(Next(w, Clear), steps).tab.stored.None?
  }

  /** The server answered the call in flight, or would grant it now. */
  predicate RefreshMaySucceed(w: World, now: int) {
    && w.tab.promise.Pending? && w.tab.promise.call in w.calls
    && var call := w.calls[w.tab.promise.call];
       call.progress.Answered? || (call.progress.OnWire? && Sessions.Refresh(w.db, call.t, now).Accepted?)
  }

  /** Nothing is stored, and nothing in flight can change that. */
  ghost predicate LoggedOut(w: World, now: int) {
    && w.tab.stored.None? && Sessions.Inv(w.db)
    && (w.tab.promise.Pending? ==>
          && w.tab.promise.call in w.calls
          && w.calls[w.tab.promise.call].t.id < w.db.nextToken
          && !RefreshMaySucceed(w, now))
  }

  /** The request that a server step hands to the session tables, if it is one. */
  function RequestOf(w: World, step: Step): Option<Sessions.Request> {
    match step
    case ServeRefresh(c, at) => if c in w.calls then Some(Sessions.Refreshes(w.calls[c].t, at)) else None
    case ServeLogin(user, at) => Some(Sessions.SignsIn(user, at))
    case ServeOther(request) => Some(request)
    case _ => None
  }

  lemma NextKeepsLoggedOut(w: World, step: Step, now: int)
    requires LoggedOut(w, now) && !step.StoreLogin? && NotBefore(step, now)
    ensures LoggedOut(Next(w, step), now)
  {
    var w' := Next(w, step);
    var r := RequestOf(w, step);
    if r.Some? {
      Sessions.HandleKeepsInv(w.db, r.value);
      RotationIsByRefresh(w.db, r.value, 0);
      if w.tab.promise.Pending? && w.calls[w.tab.promise.call].progress.OnWire? {
        var t := w.calls[w.tab.promise.call].t;
        Sessions.AcceptanceFades(w.db, r.value, t, now);
        if step.ServeRefresh? { RefusedLater(w.db, t, now, step.at); }
      }
    }
  }

  lemma {:induction false} LoggedOutStays(w: World, steps: History<Step>, now: int)
    requires LoggedOut(w, now) && WithoutLogin(steps) && ServedFrom(steps, now)
    ensures LoggedOut(Run(w, steps), now)
  {
    if steps.Then? {
      LoggedOutStays(w, steps.before, now);
      NextKeepsLoggedOut(Run(w, steps.before), steps.latest, now);
    }
  }

  lemma SuccessUndoesLogout(w: World, now: int)
    requires RefreshMaySucceed(w, now)
    ensures !LogoutSticks(w, now)
  {
    var c, cleared := w.tab.promise.call, Next(w, Clear);
    assert Run(cleared, Start) == cleared;
    if w.calls[c].progress.Answered? {
      var steps := Then(Start, DeliverRefresh(c));
      assert WithoutLogin(steps) && ServedFrom(steps, now) && Run(cleared, steps).tab.stored.Some?;
    } else {
      var served := Then(Start, ServeRefresh(c, now));
      var steps := Then(served, DeliverRefresh(c));
      assert Run(cleared, served).calls[c].progress.Answered? && Run(cleared, served).tab.promise == Pending(c);
      assert WithoutLogin(served) && ServedFrom(served, now);
      assert WithoutLogin(steps) && ServedFrom(steps, now) && Run(cleared, steps).tab.stored.Some?;
    }
  }

  /** A logout sticks, whatever is served from `now` on, if and only if no refresh is in flight that the
      server has granted or would grant now: its answer would store a session again. */
  lemma LogoutIsExact(db: Sessions.Db, stored: Option<Token>, steps: History<Step>, now: int)
    requires Sessions.Inv(db) && Opens(db, stored) && ReloadsAtRest(Initial(db, stored), steps)
    ensures var w := Run(Initial(db, stored), steps);
            LogoutSticks(w, now) <==> !RefreshMaySucceed(w, now)
  {
    var w := Run(Initial(db, stored), steps);
    RunKeepsInv(db, stored, steps);
    if RefreshMaySucceed(w, now) {
      SuccessUndoesLogout(w, now);
    } else {
      if w.tab.promise.Pending? {
        assert CallOk(w, w.tab.promise.call, NONE_DOOMED);
      }
      forall later | WithoutLogin(later) && ServedFrom(later, now) ensures Run(Next(w, Clear), later).tab.stored.None? {
        LoggedOutStays(Next(w, Clear), later, now);
      }
    }
  }
}
