/** Watchlist notifications: who may be emailed about what, and the digests that do it. */
module Notifications {
  import opened SlidingWindow
  import opened Wrappers

  datatype Kind = PriceDrop | TargetReached | EndedListing | DealScore

  /** A notification row.  It waits for a digest while it is eligible and not sent. */
  datatype Note = Note(user: int, kind: Kind, eventKey: int, dedupeKey: int, inApp: bool, eligible: bool, sentAt: Option<int>)

  datatype Preference = Preference(inApp: bool, email: bool)

  /** Quiet hours of a day, in minutes. */
  datatype Quiet = Quiet(start: int, end: int)

  datatype Settings = Settings(email: bool, quiet: Option<Quiet>)

  datatype Db = Db(notes: map<int, Note>, preferences: map<(int, Kind), Preference>, settings: map<int, Settings>)

  const DEFAULT_PREFERENCE := Preference(true, false)
  const DEFAULT_SETTINGS := Settings(true, None)

  // ---------------------------------------------------------------- reading the settings

  function PreferenceOf(db: Db, user: int, kind: Kind): Preference {
    if (user, kind) in db.preferences then db.preferences[(user, kind)] else DEFAULT_PREFERENCE
  }

  predicate OptedOut(db: Db, user: int) { user in db.settings && !db.settings[user].email }

  predicate MayEmail(db: Db, user: int, kind: Kind) {
    PreferenceOf(db, user, kind).email && !OptedOut(db, user)
  }

  predicate Pending(n: Note) { n.eligible && n.sentAt.None? }

  /** `_quiet_hours_active`; a start that is not before the end wraps past midnight. */
  predicate QuietAt(db: Db, user: int, minute: int) {
    && user in db.settings
    && db.settings[user].quiet.Some?
    && var q := db.settings[user].quiet.value;
       if q.start < q.end then q.start <= minute < q.end else minute >= q.start || minute < q.end
  }

  // ---------------------------------------------------------------- the operations

  predicate Repeated(db: Db, user: int, dedupeKey: int) {
    exists id :: id in db.notes && db.notes[id].user == user && db.notes[id].dedupeKey == dedupeKey
  }

  predicate EventTaken(db: Db, eventKey: int) {
    exists id :: id in db.notes && db.notes[id].eventKey == eventKey
  }

  /** `emit`: nothing without a channel, for a repeated event, or for a taken event key. */
  function Emit(db: Db, id: int, user: int, kind: Kind, eventKey: int, dedupeKey: int): Db {
    var inApp, email := PreferenceOf(db, user, kind).inApp, MayEmail(db, user, kind);
    if (!inApp && !email) || Repeated(db, user, dedupeKey) || EventTaken(db, eventKey) || id in db.notes then db
    else db.(notes := db.notes[id := Note(user, kind, eventKey, dedupeKey, inApp, email, None)])
  }

  predicate Concerns(n: Note, user: int, kind: Option<Kind>) {
    n.user == user && (kind.None? || n.kind == kind.value)
  }

  /** `disable_pending_notification_emails`. */
  function Disabled(notes: map<int, Note>, user: int, kind: Option<Kind>): map<int, Note> {
    map id | id in notes ::
      if Concerns(notes[id], user, kind) && Pending(notes[id]) then notes[id].(eligible := false) else notes[id]
  }

  function Or<T>(given: Option<T>, otherwise: T): T {
    if given.Some? then given.value else otherwise
  }

  function UpdatePreference(db: Db, user: int, kind: Kind, inApp: Option<bool>, email: Option<bool>): Db {
    var old' := PreferenceOf(db, user, kind);
    Db(if email == Some(false) then Disabled(db.notes, user, Some(kind)) else db.notes,
       db.preferences[(user, kind) := Preference(Or(inApp, old'.inApp), Or(email, old'.email))],
       db.settings)
  }

  function UpdateSettings(db: Db, user: int, email: Option<bool>, quiet: Option<Option<Quiet>>): Db {
    var old' := if user in db.settings then db.settings[user] else DEFAULT_SETTINGS;
    Db(if email == Some(false) then Disabled(db.notes, user, None) else db.notes,
       db.preferences,
       db.settings[user := Settings(Or(email, old'.email), Or(quiet, old'.quiet))])
  }

  function Unsubscribe(db: Db, user: int): Db { UpdateSettings(db, user, Some(false), None) }

  function PendingFor(db: Db, user: int): set<int> {
    set id | id in db.notes && db.notes[id].user == user && Pending(db.notes[id])
  }

  /** `mark_notification_emails_sent`. */
  function Marked(notes: map<int, Note>, ids: set<int>, now: int): map<int, Note> {
    map id | id in notes :: if id in ids then notes[id].(sentAt := Some(now)) else notes[id]
  }

  /** How the mail server answered, and what the clocks said. */
  datatype Attempt = Attempt(sent: bool, now: int, localMinute: int)

  /** The notifications one digest tells the user about and gets through. */
  function Mailed(db: Db, user: int, a: Attempt): set<int> {
    if OptedOut(db, user) || QuietAt(db, user, a.localMinute) || !a.sent then {} else PendingFor(db, user)
  }

  /** One user's turn in `deliver_pending_email_digests`. */
  function Digest(db: Db, user: int, a: Attempt): Db {
    if PendingFor(db, user) == {} then db
    else if OptedOut(db, user) then db.(notes := Disabled(db.notes, user, None))
    else db.(notes := Marked(db.notes, Mailed(db, user, a), a.now))
  }

  /** The turns of several users, and what they count. */
  function Digests(db: Db, users: seq<int>, attempts: int -> Attempt): (Db, nat, nat) {
    if users == [] then (db, 0, 0) else
      var (d, pending, delivered) := Digests(db, users[..|users| - 1], attempts);
      var user := users[|users| - 1];
      (Digest(d, user, attempts(user)), pending + |PendingFor(d, user)|, delivered + |Mailed(d, user, attempts(user))|)
  }

  class NotificationStore {
    var notes: map<int, Note>
    var preferences: map<(int, Kind), Preference>
    var settings: map<int, Settings>

    constructor ()
      ensures Contents() == Db(map[], map[], map[])
    {
      notes, preferences, settings := map[], map[], map[];
    }

    function Contents(): Db
      reads this
    {
      Db(notes, preferences, settings)
    }

    method EmitNotification(id: int, user: int, kind: Kind, eventKey: int, dedupeKey: int) returns (created: bool)
      requires id !in notes
      modifies this`notes
      ensures Contents() == Emit(old(Contents()), id, user, kind, eventKey, dedupeKey)
      ensures created <==> id in notes
    {
      var inApp, email := true, false;
      if (user, kind) in preferences {
        inApp, email := preferences[(user, kind)].inApp, preferences[(user, kind)].email;
      }
      email := email && (user !in settings || settings[user].email);
      if !inApp && !email {
        return false;
      }
      if Repeated(Contents(), user, dedupeKey) || EventTaken(Contents(), eventKey) {
        return false;
      }
      notes := notes[id := Note(user, kind, eventKey, dedupeKey, inApp, email, None)];
      created := true;
    }

    method DisablePending(user: int, kind: Option<Kind>)
      modifies this`notes
      ensures notes == Disabled(old(notes), user, kind)
    {
      notes := Disabled(notes, user, kind);
    }

    method SetPreference(user: int, kind: Kind, inApp: Option<bool>, email: Option<bool>)
      modifies this
      ensures Contents() == UpdatePreference(old(Contents()), user, kind, inApp, email)
    {
      var p := if (user, kind) in preferences then preferences[(user, kind)] else DEFAULT_PREFERENCE;
      if inApp.Some? {
        p := p.(inApp := inApp.value);
      }
      if email.Some? {
        p := p.(email := email.value);
      }
      preferences := preferences[(user, kind) := p];
      if email == Some(false) {
        DisablePending(user, Some(kind));
      }
    }

    method SetSettings(user: int, email: Option<bool>, quiet: Option<Option<Quiet>>)
      modifies this
      ensures Contents() == UpdateSettings(old(Contents()), user, email, quiet)
    {
      var s := if user in settings then settings[user] else DEFAULT_SETTINGS;
      if email.Some? {
        s := s.(email := email.value);
      }
      if quiet.Some? {
        s := s.(quiet := quiet.value);
      }
      settings := settings[user := s];
      if email == Some(false) {
        DisablePending(user, None);
      }
    }

    /** One user's turn: disable, stay quiet, or send and mark. */
    method DeliverDigest(user: int, a: Attempt) returns (pending: nat, delivered: nat)
      modifies this`notes
      ensures Contents() == Digest(old(Contents()), user, a)
      ensures pending == |PendingFor(old(Contents()), user)| && delivered == |Mailed(old(Contents()), user, a)|
    {
      var waiting := PendingFor(Contents(), user);
      pending, delivered := |waiting|, 0;
      if waiting == {} {
        return;
      }
      NothingMarked(notes, a.now);
      if user in settings && !settings[user].email {
        DisablePending(user, None);
        return;
      }
      if QuietAt(Contents(), user, a.localMinute) {
        return;
      }
      if a.sent {
        notes := Marked(notes, waiting, a.now);
        delivered := |waiting|;
      }
    }

    /** `deliver_pending_email_digests`, with the mail server's answers given. */
    method DeliverDigests(users: seq<int>, attempts: int -> Attempt) returns (pending: nat, delivered: nat)
      modifies this`notes
      ensures (Contents(), pending, delivered) == Digests(old(Contents()), users, attempts)
    {
      pending, delivered := 0, 0;
      for i := 0 to |users|
        invariant (Contents(), pending, delivered) == Digests(old(Contents()), users[..i], attempts)
      {
        assert users[..i + 1][..i] == users[..i];
        var p, d := DeliverDigest(users[i], attempts(users[i]));
        pending, delivered := pending + p, delivered + d;
      }
      assert users[..|users|] == users;
    }
  }

  lemma NothingMarked(notes: map<int, Note>, now: int)
    ensures Marked(notes, {}, now) == notes
  {
  }

  // ---------------------------------------------------------------- what the settings mean

  const MINUTES_PER_DAY := 1440

  /** Quiet hours last from their start to their end on a clock of 24 hours, past midnight if the end is
      not later in the day; all day if the two are the same. */
  lemma QuietIsExact(db: Db, user: int, q: Quiet, minute: int)
    requires user in db.settings && db.settings[user].quiet == Some(q)
    requires 0 <= q.start < MINUTES_PER_DAY && 0 <= q.end < MINUTES_PER_DAY && 0 <= minute < MINUTES_PER_DAY
    ensures QuietAt(db, user, minute) <==>
              q.start == q.end || (minute - q.start) % MINUTES_PER_DAY < (q.end - q.start) % MINUTES_PER_DAY
  {
  }

  lemma NeverQuiet(db: Db, user: int, minute: int)
    requires user in db.settings ==> db.settings[user].quiet.None?
    ensures !QuietAt(db, user, minute)
  {
  }

  /** What a user asked for last is what holds: a channel that is named gets the value given, one that is
      not named keeps its own, which is in-app on and mail off at first; other users and kinds keep theirs. */
  lemma PreferenceIsKept(db: Db, user: int, kind: Kind, inApp: Option<bool>, email: Option<bool>, u: int, k: Kind)
    ensures
      var p, p' := PreferenceOf(db, user, kind), PreferenceOf(UpdatePreference(db, user, kind, inApp, email), user, kind);
      && (inApp.Some? ==> p'.inApp == inApp.value) && (inApp.None? ==> p'.inApp == p.inApp)
      && (email.Some? ==> p'.email == email.value) && (email.None? ==> p'.email == p.email)
      && ((user, kind) !in db.preferences ==> p.inApp && !p.email)
    ensures (u, k) != (user, kind) ==>
              PreferenceOf(UpdatePreference(db, user, kind, inApp, email), u, k) == PreferenceOf(db, u, k)
    ensures UpdatePreference(db, user, kind, inApp, email).settings == db.settings
  {
  }

  lemma SettingsAreKept(db: Db, user: int, email: Option<bool>, quiet: Option<Option<Quiet>>, u: int)
    ensures
      var db' := UpdateSettings(db, user, email, quiet);
      && (OptedOut(db', user) <==> if email.Some? then !email.value else OptedOut(db, user))
      && user in db'.settings
      && db'.settings[user].quiet == (if quiet.Some? then quiet.value else if user in db.settings then db.settings[user].quiet else None)
      && (u != user ==> (u in db'.settings <==> u in db.settings) && (u in db.settings ==> db'.settings[u] == db.settings[u]))
      && db'.preferences == db.preferences
    ensures OptedOut(Unsubscribe(db, user), user)
  {
  }

  /** Turning mail off disables exactly what waits, of the kind or of all; all else is as it was, and a
      change that does not turn mail off leaves every notification alone. */
  lemma DisablesExactly(db: Db, user: int, kind: Kind, inApp: Option<bool>, email: Option<bool>, quiet: Option<Option<Quiet>>, id: int)
    requires id in db.notes
    ensures
      var n, a, b := db.notes[id], UpdatePreference(db, user, kind, inApp, email).notes, UpdateSettings(db, user, email, quiet).notes;
      && a.Keys == db.notes.Keys == b.Keys
      && a[id] == (if email == Some(false) && n.user == user && n.kind == kind && n.sentAt.None? then n.(eligible := false) else n)
      && b[id] == (if email == Some(false) && n.user == user && n.sentAt.None? then n.(eligible := false) else n)
  {
  }

  /** What an event leaves: nothing without a channel, for a repeated event or a taken event key; else a
      notification for the channels that are on, which is mailed unless the user opted out. */
  lemma EmitIsExact(db: Db, id: int, user: int, kind: Kind, eventKey: int, dedupeKey: int, other: int)
    requires id !in db.notes
    ensures
      var db' := Emit(db, id, user, kind, eventKey, dedupeKey);
      var p := if (user, kind) in db.preferences then db.preferences[(user, kind)] else Preference(true, false);
      var mail := p.email && (user in db.settings ==> db.settings[user].email);
      && (id in db'.notes <==>
            && (p.inApp || mail)
            && forall o :: o in db.notes ==>
                 db.notes[o].eventKey != eventKey && !(db.notes[o].user == user && db.notes[o].dedupeKey == dedupeKey))
      && (id in db'.notes ==> db'.notes[id] == Note(user, kind, eventKey, dedupeKey, p.inApp, mail, None))
      && (other != id ==> (other in db'.notes <==> other in db.notes) && (other in db.notes ==> db'.notes[other] == db.notes[other]))
      && db'.preferences == db.preferences && db'.settings == db.settings
  {
  }

  /** What a user's turn does: it disables what waits if the user opted out, marks exactly what waits if the
      mail got through outside quiet hours, and changes nothing else. */
  lemma DigestIsExact(db: Db, user: int, a: Attempt, id: int)
    requires id in db.notes
    ensures
      var n, n' := db.notes[id], Digest(db, user, a).notes;
      && n'.Keys == db.notes.Keys
      && n'[id] == (if n.user != user || !n.eligible || n.sentAt.Some? then n
                    else if OptedOut(db, user) then n.(eligible := false)
                    else if a.sent && !QuietAt(db, user, a.localMinute) then n.(sentAt := Some(a.now)) else n)
  {
    assert Pending(db.notes[id]) && db.notes[id].user == user <==> id in PendingFor(db, user);
  }

  // ---------------------------------------------------------------- whole runs

  datatype Step =
    | Emits(id: int, user: int, kind: Kind, eventKey: int, dedupeKey: int)
    | SetsPreference(user: int, kind: Kind, inApp: Option<bool>, email: Option<bool>)
    | SetsSettings(user: int, email': Option<bool>, quiet: Option<Option<Quiet>>)
    | Unsubscribes(user: int)
    | Digested(user: int, attempt: Attempt)

  function Next(db: Db, step: Step): Db {
    match step
    case Emits(id, user, kind, eventKey, dedupeKey) => Emit(db, id, user, kind, eventKey, dedupeKey)
    case SetsPreference(user, kind, inApp, email) => UpdatePreference(db, user, kind, inApp, email)
    case SetsSettings(user, email, quiet) => UpdateSettings(db, user, email, quiet)
    case Unsubscribes(user) => Unsubscribe(db, user)
    case Digested(user, attempt) => Digest(db, user, attempt)
  }

  function Run(steps: History<Step>): Db {
    match steps
    case Start => Db(map[], map[], map[])
    case Then(before, step) => Next(Run(before), step)
  }

  ghost predicate NoteOk(db: Db, id: int) {
    id in db.notes && Pending(db.notes[id]) ==> MayEmail(db, db.notes[id].user, db.notes[id].kind)
  }

  ghost predicate Unlike(db: Db, i: int, j: int) {
    i in db.notes && j in db.notes && i != j ==>
      && db.notes[i].eventKey != db.notes[j].eventKey
      && !(db.notes[i].user == db.notes[j].user && db.notes[i].dedupeKey == db.notes[j].dedupeKey)
  }

  ghost predicate Inv(db: Db) {
    (forall id :: NoteOk(db, id)) && (forall i, j :: Unlike(db, i, j))
  }

  lemma NextKeepsInv(db: Db, step: Step)
    requires Inv(db)
    ensures Inv(Next(db, step))
  {
    var db' := Next(db, step);
    forall id ensures NoteOk(db', id) {
      assert NoteOk(db, id);
    }
    forall i, j ensures Unlike(db', i, j) {
      assert Unlike(db, i, j);
    }
  }

  lemma {:induction false} RunKeepsInv(steps: History<Step>)
    ensures Inv(Run(steps))
  {
    if steps.Then? {
      RunKeepsInv(steps.before);
      NextKeepsInv(Run(steps.before), steps.latest);
    }
  }

  /** In every reachable state nothing waits to be emailed to a user who opted out, or about a
      kind the user disabled; what a digest mails was wanted when it was mailed. */
  lemma OptOutIsRespected(steps: History<Step>, user: int, kind: Kind, id: int, a: Attempt)
    ensures OptedOut(Run(steps), user) || !PreferenceOf(Run(steps), user, kind).email ==>
      !(id in PendingFor(Run(steps), user) && Run(steps).notes[id].kind == kind)
    ensures id in Mailed(Run(steps), user, a) ==>
      && MayEmail(Run(steps), user, Run(steps).notes[id].kind)
      && !QuietAt(Run(steps), user, a.localMinute)
  {
    RunKeepsInv(steps);
    assert NoteOk(Run(steps), id);
  }

  /** No two notifications share an event key, or a user and a dedupe key. */
  lemma EventsAreUnique(steps: History<Step>, i: int, j: int)
    requires i in Run(steps).notes && j in Run(steps).notes && i != j
    ensures Run(steps).notes[i].eventKey != Run(steps).notes[j].eventKey
    ensures !(Run(steps).notes[i].user == Run(steps).notes[j].user && Run(steps).notes[i].dedupeKey == Run(steps).notes[j].dedupeKey)
  {
    RunKeepsInv(steps);
    assert Unlike(Run(steps), i, j);
  }

  /** A note that stopped waiting. */
  predicate Settled(n: Note) { !Pending(n) }

  lemma NextKeepsSettled(db: Db, step: Step, id: int)
    requires id in db.notes && Settled(db.notes[id])
    ensures id in Next(db, step).notes && Next(db, step).notes[id] == db.notes[id]
  {
  }

  /** Once a notification no longer waits, no step changes it again: neither is it mailed once
      more, nor does it become eligible again. */
  lemma {:induction false} SettledForever(longer: History<Step>, shorter: History<Step>, id: int)
    requires Extends(longer, shorter) && id in Run(shorter).notes && Settled(Run(shorter).notes[id])
    ensures id in Run(longer).notes && Run(longer).notes[id] == Run(shorter).notes[id]
  {
    if longer != shorter {
      SettledForever(longer.before, shorter, id);
      NextKeepsSettled(Run(longer.before), longer.latest, id);
    }
  }

  /** The steps by which a user turns email off, for everything or for one kind. */
  predicate TurnsOff(step: Step, user: int, kind: Kind) {
    match step
    case SetsPreference(u, k, _, email) => u == user && k == kind && email == Some(false)
    case SetsSettings(u, email, _) => u == user && email == Some(false)
    case Unsubscribes(u) => u == user
    case _ => false
  }

  /** How often a notification was part of a digest that got through. */
  function Mailings(steps: History<Step>, id: int): nat {
    match steps
    case Start => 0
    case Then(before, step) =>
      Mailings(before, id) + if step.Digested? && id in Mailed(Run(before), step.user, step.attempt) then 1 else 0
  }

  /** A notification pending when its user turns email off is never mailed, whatever is
      switched back on later. */
  lemma PendingAtOptOutIsNeverMailed(longer: History<Step>, before: History<Step>, step: Step, id: int)
    requires id in Run(before).notes && Pending(Run(before).notes[id])
    requires TurnsOff(step, Run(before).notes[id].user, Run(before).notes[id].kind)
    requires Extends(longer, Then(before, step))
    ensures id in Run(longer).notes && Run(longer).notes[id].sentAt.None? && Mailings(longer, id) == 0
  {
    var off := Then(before, step);
    assert Settled(Run(off).notes[id]) && Run(off).notes[id].sentAt.None?;
    SettledForever(longer, off, id);
    MailedIffMarked(longer, id);
  }

  /** A notification is mailed at most once, and is marked as sent exactly if it was. */
  lemma {:induction false} MailedIffMarked(steps: History<Step>, id: int)
    ensures Mailings(steps, id) == if id in Run(steps).notes && Run(steps).notes[id].sentAt.Some? then 1 else 0
  {
    if steps.Then? {
      MailedIffMarked(steps.before, id);
    }
  }

  /** One digest reaches everything that waits for the user, or nothing; other users' notes stay. */
  lemma DigestIsComplete(db: Db, user: int, a: Attempt, other: int)
    requires other != user
    ensures PendingFor(Digest(db, user, a), other) == PendingFor(db, other)
    ensures Mailed(db, user, a) == {} || Mailed(db, user, a) == PendingFor(db, user)
    ensures PendingFor(Digest(db, user, a), user)
         == if OptedOut(db, user) || Mailed(db, user, a) != {} then {} else PendingFor(db, user)
  {
    var db' := Digest(db, user, a);
    var left := if OptedOut(db, user) || Mailed(db, user, a) != {} then {} else PendingFor(db, user);
    forall id ensures id in PendingFor(db', other) <==> id in PendingFor(db, other) {
    }
    forall id ensures id in PendingFor(db', user) <==> id in left {
      assert id in db.notes && db.notes[id].user == user && Pending(db.notes[id]) <==> id in PendingFor(db, user);
    }
  }

  function PendingOf(db: Db, users: seq<int>): set<int> {
    set id | id in db.notes && db.notes[id].user in users && Pending(db.notes[id])
  }

  predicate AllDifferent(users: seq<int>) {
    forall i, j :: 0 <= i < j < |users| ==> users[i] != users[j]
  }

  /** A turn does to a notification what it would do before other users' turns. */
  lemma TurnIsOwn(db: Db, d: Db, user: int, a: Attempt, id: int)
    requires id in db.notes && id in d.notes && d.settings == db.settings
    requires db.notes[id].user == user ==> d.notes[id] == db.notes[id]
    requires db.notes[id].user == d.notes[id].user
    ensures Digest(d, user, a).notes.Keys == d.notes.Keys
    ensures Digest(d, user, a).notes[id] == if db.notes[id].user == user then Digest(db, user, a).notes[id] else d.notes[id]
  {
    DigestIsExact(d, user, a, id);
    DigestIsExact(db, user, a, id);
  }

  /** A pass over different users gives each of them the turn that it would have alone, and leaves the
      others' notifications as they are. */
  lemma {:induction false} PassIsExact(db: Db, users: seq<int>, attempts: int -> Attempt, id: int)
    requires AllDifferent(users) && id in db.notes
    ensures
      var db', n := Digests(db, users, attempts).0, db.notes[id];
      && db'.settings == db.settings && id in db'.notes
      && db'.notes[id] == (if n.user in users then Digest(db, n.user, attempts(n.user)).notes[id] else n)
      && db'.notes[id].user == n.user
  {
    if users != [] {
      var init, user := users[..|users| - 1], users[|users| - 1];
      PassIsExact(db, init, attempts, id);
      assert user !in init;
      TurnIsOwn(db, Digests(db, init, attempts).0, user, attempts(user), id);
      DigestIsExact(db, user, attempts(user), id);
    }
  }

  lemma {:induction false} PassKeepsOthers(db: Db, users: seq<int>, attempts: int -> Attempt, u: int)
    requires u !in users
    ensures PendingFor(Digests(db, users, attempts).0, u) == PendingFor(db, u)
  {
    if users != [] {
      var init, user := users[..|users| - 1], users[|users| - 1];
      PassKeepsOthers(db, init, attempts, u);
      DigestIsComplete(Digests(db, init, attempts).0, user, attempts(user), u);
    }
  }

  lemma PendingOfOneMore(db: Db, users: seq<int>)
    requires AllDifferent(users) && users != []
    ensures |PendingOf(db, users)| == |PendingOf(db, users[..|users| - 1])| + |PendingFor(db, users[|users| - 1])|
  {
    var init, user := users[..|users| - 1], users[|users| - 1];
    assert forall u :: u in users <==> u in init || u == user;
    assert PendingOf(db, users) == PendingOf(db, init) + PendingFor(db, user);
    assert PendingOf(db, init) !! PendingFor(db, user);
  }

  /** It counts what waited for all of them. */
  lemma {:induction false} PassCounts(db: Db, users: seq<int>, attempts: int -> Attempt)
    requires AllDifferent(users)
    ensures Digests(db, users, attempts).1 == |PendingOf(db, users)|
  {
    if users != [] {
      PassCounts(db, users[..|users| - 1], attempts);
      PassKeepsOthers(db, users[..|users| - 1], attempts, users[|users| - 1]);
      PendingOfOneMore(db, users);
    }
  }

  function SentIds(db: Db): set<int> {
    set id | id in db.notes && db.notes[id].sentAt.Some?
  }

  lemma DigestCounts(db: Db, user: int, a: Attempt)
    ensures |SentIds(Digest(db, user, a))| == |SentIds(db)| + |Mailed(db, user, a)|
    ensures |Mailed(db, user, a)| <= |PendingFor(db, user)|
  {
    assert SentIds(Digest(db, user, a)) == SentIds(db) + Mailed(db, user, a);
    forall id | id in Mailed(db, user, a) ensures id !in SentIds(db) {
      assert Pending(db.notes[id]);
    }
    assert SentIds(db) !! Mailed(db, user, a);
  }

  /** The delivered count a pass reports is the number of notifications it marked. */
  lemma {:induction false} DeliveredIsMarked(db: Db, users: seq<int>, attempts: int -> Attempt)
    ensures
      var (db', pending, delivered) := Digests(db, users, attempts);
      |SentIds(db')| == |SentIds(db)| + delivered && delivered <= pending
  {
    if users != [] {
      var user := users[|users| - 1];
      DeliveredIsMarked(db, users[..|users| - 1], attempts);
      DigestCounts(Digests(db, users[..|users| - 1], attempts).0, user, attempts(user));
    }
  }

  // ---------------------------------------------------------------- digests and emissions that overlap with others

  /** A digest that has read what waits, and awaits the mail server or its commit. */
  datatype Letter = Letter(ids: set<int>, delivered: bool)

  /** A notification that an emission has decided on and not committed. */
  datatype Draft = Draft(id: int, note: Note)

  datatype Event =
    | Plain(step: Step)
    | Opens(job: nat, user: int, localMinute: int)
    | Answers(job: nat, sent: bool)
    | Marks(job: nat, now: int)
    | Decides(job: nat, id: int, user: int, kind: Kind, eventKey: int, dedupeKey: int)
    | Creates(job: nat)

  /** `mailed` is what each delivered digest told about. */
  datatype Shared = Shared(db: Db, letters: map<nat, Letter>, drafts: map<nat, Draft>, mailed: History<set<int>>)

  function Drafted(db: Db, user: int, kind: Kind, eventKey: int, dedupeKey: int): Note {
    Note(user, kind, eventKey, dedupeKey, PreferenceOf(db, user, kind).inApp, MayEmail(db, user, kind), None)
  }

  /** The unique index on event keys admits the draft. */
  predicate Creatable(db: Db, d: Draft) { d.id !in db.notes && !EventTaken(db, d.note.eventKey) }

  function Act(s: Shared, e: Event): Shared {
    match e
    case Plain(step) =>
      s.(db := Next(s.db, step),
         mailed := if step.Digested? then Then(s.mailed, Mailed(s.db, step.user, step.attempt)) else s.mailed)
    case Opens(job, user, minute) =>
      if job in s.letters || PendingFor(s.db, user) == {} || OptedOut(s.db, user) || QuietAt(s.db, user, minute) then s
      else s.(letters := s.letters[job := Letter(PendingFor(s.db, user), false)])
    case Answers(job, sent) =>
      if job !in s.letters || s.letters[job].delivered then s
      else if !sent then s.(letters := s.letters - {job})
      else s.(letters := s.letters[job := s.letters[job].(delivered := true)], mailed := Then(s.mailed, s.letters[job].ids))
    case Marks(job, now) =>
      if job !in s.letters || !s.letters[job].delivered then s
      else s.(db := s.db.(notes := Marked(s.db.notes, s.letters[job].ids, now)), letters := s.letters - {job})
    case Decides(job, id, user, kind, eventKey, dedupeKey) =>
      var note := Drafted(s.db, user, kind, eventKey, dedupeKey);
      if job in s.drafts || (!note.inApp && !note.eligible) || Repeated(s.db, user, dedupeKey) then s
      else s.(drafts := s.drafts[job := Draft(id, note)])
    case Creates(job) =>
      if job !in s.drafts then s
      else
        var d, done := s.drafts[job], s.(drafts := s.drafts - {job});
        if Creatable(s.db, d) then done.(db := s.db.(notes := s.db.notes[d.id := d.note])) else done
  }

  function Continue(s: Shared, events: History<Event>): Shared {
    match events
    case Start => s
    case Then(before, e) => Act(Continue(s, before), e)
  }

  /** How many delivered digests told about a notification. */
  function Told(mailed: History<set<int>>, id: int): nat {
    if mailed.Start? then 0 else Told(mailed.before, id) + if id in mailed.latest then 1 else 0
  }

  /** When nothing comes between, a digest is the step of the atomic model: it is mailed and marked, or
      leaves no trace if it does not get through.  It is opened exactly if something waits for the user,
      who did not opt out and is not in quiet hours. */
  lemma StepsAreWhole(s: Shared, job: nat, user: int, minute: int, now: int)
    requires job !in s.letters
    ensures var a := Attempt(true, now, minute);
            var begun := Act(s, Opens(job, user, minute));
            var sent := Act(begun, Answers(job, true));
            var apart := Act(sent, Marks(job, now));
            && (job in begun.letters <==> PendingFor(s.db, user) != {} && !OptedOut(s.db, user) && !QuietAt(s.db, user, minute))
            && (job !in begun.letters ==> begun == s)
            && (job in begun.letters ==>
                  && begun.db == s.db && begun.mailed == s.mailed && Act(begun, Marks(job, now)) == begun
                  && sent.db == s.db && sent.mailed == Then(s.mailed, Mailed(s.db, user, a)) && Act(sent, Answers(job, false)) == sent
                  && Act(begun, Answers(job, false)) == s)
            && (!OptedOut(s.db, user) ==> apart.db == Digest(s.db, user, a))
            && apart.letters == s.letters && apart.drafts == s.drafts
            && Act(s, Plain(Digested(user, a))).mailed == Then(s.mailed, Mailed(s.db, user, a))
  {
    NothingMarked(s.db.notes, now);
    assert s.letters[job := Letter(PendingFor(s.db, user), false)] - {job} == s.letters;
    assert s.letters[job := Letter(PendingFor(s.db, user), true)] - {job} == s.letters;
  }

  /** So is an emission. */
  lemma EmissionIsWhole(s: Shared, job: nat, user: int, id: int, kind: Kind, eventKey: int, dedupeKey: int)
    requires job !in s.drafts
    ensures Act(Act(s, Decides(job, id, user, kind, eventKey, dedupeKey)), Creates(job))
         == s.(db := Emit(s.db, id, user, kind, eventKey, dedupeKey))
  {
    assert s.drafts[job := Draft(id, Drafted(s.db, user, kind, eventKey, dedupeKey))] - {job} == s.drafts;
  }

  /** No digest that tells about the notification awaits the mail server. */
  predicate NoneOpen(s: Shared, id: int) {
    forall j :: j in s.letters && !s.letters[j].delivered ==> id !in s.letters[j].ids
  }

  ghost predicate ToldNoMore(s: Shared, later: History<Event>, id: int) {
    Told(Continue(s, later).mailed, id) == Told(s.mailed, id)
  }

  ghost predicate NeverMailed(s: Shared, id: int) {
    forall later :: ToldNoMore(s, later, id)
  }

  ghost predicate Closed(s: Shared, id: int) {
    id in s.db.notes && Settled(s.db.notes[id]) && NoneOpen(s, id)
  }

  lemma ActKeepsClosed(s: Shared, e: Event, id: int)
    requires Closed(s, id)
    ensures Closed(Act(s, e), id) && Told(Act(s, e).mailed, id) == Told(s.mailed, id)
  {
  }

  lemma {:induction false} ClosedStays(s: Shared, later: History<Event>, id: int)
    requires Closed(s, id)
    ensures Closed(Continue(s, later), id) && ToldNoMore(s, later, id)
  {
    if later.Then? {
      ClosedStays(s, later.before, id);
      ActKeepsClosed(Continue(s, later.before), later.latest, id);
    }
  }

  /** A notification that no longer waits, because it is disabled or marked as sent, is in no digest
      delivered from then on, if and only if none that tells about it awaits the mail server. */
  lemma SettledIsExact(s: Shared, id: int)
    requires id in s.db.notes && Settled(s.db.notes[id])
    ensures NeverMailed(s, id) <==> NoneOpen(s, id)
  {
    if NoneOpen(s, id) {
      forall later ensures ToldNoMore(s, later, id) {
        ClosedStays(s, later, id);
      }
    } else {
      var j :| j in s.letters && !s.letters[j].delivered && id in s.letters[j].ids;
      var later := Then(Start, Answers(j, true));
      assert Continue(s, Start) == s && Continue(s, later).mailed == Then(s.mailed, s.letters[j].ids);
      assert !ToldNoMore(s, later, id);
    }
  }

  /** A notification that waits when its user turns mail off is never mailed after that if and only if
      no digest that tells about it awaits the mail server at that moment. */
  lemma OptOutIsExact(s: Shared, step: Step, id: int)
    requires id in s.db.notes && Pending(s.db.notes[id]) && TurnsOff(step, s.db.notes[id].user, s.db.notes[id].kind)
    ensures NeverMailed(Act(s, Plain(step)), id) <==> NoneOpen(s, id)
  {
    SettledIsExact(Act(s, Plain(step)), id);
  }

  // ---------------------------------------------------------------- what waits after mail is turned off

  predicate TurnsOn(step: Step, user: int, kind: Kind) {
    match step
    case SetsPreference(u, k, _, email) => u == user && k == kind && email == Some(true)
    case SetsSettings(u, email, _) => u == user && email == Some(true)
    case _ => false
  }

  predicate NeverOn(events: History<Event>, user: int, kind: Kind) {
    events.Then? ==> NeverOn(events.before, user, kind) && !(events.latest.Plain? && TurnsOn(events.latest.step, user, kind))
  }

  predicate NoneWaits(db: Db, user: int, kind: Kind) {
    forall id :: id in db.notes && db.notes[id].user == user && db.notes[id].kind == kind ==> !Pending(db.notes[id])
  }

  ghost predicate NoneWaitsAfter(s: Shared, later: History<Event>, user: int, kind: Kind) {
    NoneWaits(Continue(s, later).db, user, kind)
  }

  /** While mail stays off, nothing waits. */
  ghost predicate StaysOff(s: Shared, user: int, kind: Kind) {
    forall later :: NeverOn(later, user, kind) ==> NoneWaitsAfter(s, later, user, kind)
  }

  /** No emission has decided to mail the user about the kind, and can still be committed. */
  predicate NoneDecided(s: Shared, user: int, kind: Kind) {
    forall j :: j in s.drafts && s.drafts[j].note.user == user && s.drafts[j].note.kind == kind && Pending(s.drafts[j].note)
                ==> !Creatable(s.db, s.drafts[j])
  }

  ghost predicate Off(s: Shared, user: int, kind: Kind) {
    !MayEmail(s.db, user, kind) && NoneWaits(s.db, user, kind) && NoneDecided(s, user, kind)
  }

  lemma NextKeepsOff(db: Db, step: Step, user: int, kind: Kind)
    requires !MayEmail(db, user, kind) && NoneWaits(db, user, kind) && !TurnsOn(step, user, kind)
    ensures !MayEmail(Next(db, step), user, kind) && NoneWaits(Next(db, step), user, kind)
  {
  }

  lemma NextKeepsKeys(db: Db, step: Step, i: int)
    requires i in db.notes
    ensures i in Next(db, step).notes && Next(db, step).notes[i].eventKey == db.notes[i].eventKey
  {
  }

  /** An event key stays taken. */
  lemma StaysTaken(s: Shared, e: Event, d: Draft)
    requires !Creatable(s.db, d)
    ensures !Creatable(Act(s, e).db, d)
  {
    if e.Plain? && d.id in s.db.notes {
      NextKeepsKeys(s.db, e.step, d.id);
    } else if i :| i in s.db.notes && s.db.notes[i].eventKey == d.note.eventKey {
      if e.Plain? { NextKeepsKeys(s.db, e.step, i); }
      assert i in Act(s, e).db.notes && Act(s, e).db.notes[i].eventKey == d.note.eventKey;
    }
  }

  lemma ActKeepsOff(s: Shared, e: Event, user: int, kind: Kind)
    requires Off(s, user, kind) && !(e.Plain? && TurnsOn(e.step, user, kind))
    ensures Off(Act(s, e), user, kind)
  {
    var s' := Act(s, e);
    if e.Plain? {
      NextKeepsOff(s.db, e.step, user, kind);
    }
    forall j | j in s'.drafts && s'.drafts[j].note.user == user && s'.drafts[j].note.kind == kind && Pending(s'.drafts[j].note)
      ensures !Creatable(s'.db, s'.drafts[j])
    {
      assert j in s.drafts && s'.drafts[j] == s.drafts[j];
      StaysTaken(s, e, s.drafts[j]);
    }
  }

  lemma {:induction false} OffStays(s: Shared, later: History<Event>, user: int, kind: Kind)
    requires Off(s, user, kind) && NeverOn(later, user, kind)
    ensures Off(Continue(s, later), user, kind)
  {
    if later.Then? {
      OffStays(s, later.before, user, kind);
      ActKeepsOff(Continue(s, later.before), later.latest, user, kind);
    }
  }

  /** While mail about a kind is off for a user, nothing of that kind waits, in every continuation, if
      and only if nothing does now and no emission that decided before can still commit. */
  lemma OffIsExact(s: Shared, user: int, kind: Kind)
    requires !MayEmail(s.db, user, kind)
    ensures StaysOff(s, user, kind) <==> NoneWaits(s.db, user, kind) && NoneDecided(s, user, kind)
  {
    assert Continue(s, Start) == s && NeverOn(Start, user, kind);
    if !NoneWaits(s.db, user, kind) {
      assert !NoneWaitsAfter(s, Start, user, kind);
    } else if NoneDecided(s, user, kind) {
      forall later | NeverOn(later, user, kind) ensures NoneWaitsAfter(s, later, user, kind) {
        OffStays(s, later, user, kind);
      }
    } else {
      var j :| j in s.drafts && s.drafts[j].note.user == user && s.drafts[j].note.kind == kind
               && Pending(s.drafts[j].note) && Creatable(s.db, s.drafts[j]);
      var later := Then(Start, Creates(j));
      assert NeverOn(later, user, kind) && s.drafts[j].id in Continue(s, later).db.notes;
      assert !NoneWaitsAfter(s, later, user, kind);
    }
  }

  /** For every state in which a digest may go to a user: mail turned off while it awaits the mail
      server, and what waited is mailed after that. */
  lemma LetterSurvivesOptOut(s: Shared, job: nat, minute: int, step: Step, id: int)
    requires job !in s.letters && id in s.db.notes && Pending(s.db.notes[id])
    requires !OptedOut(s.db, s.db.notes[id].user) && !QuietAt(s.db, s.db.notes[id].user, minute)
    requires TurnsOff(step, s.db.notes[id].user, s.db.notes[id].kind)
    ensures var off := Act(Act(s, Opens(job, s.db.notes[id].user, minute)), Plain(step));
            !Pending(off.db.notes[id]) && Told(Act(off, Answers(job, true)).mailed, id) == Told(s.mailed, id) + 1
  {
    assert id in PendingFor(s.db, s.db.notes[id].user);
  }
}
