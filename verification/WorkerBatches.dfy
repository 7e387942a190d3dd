/** Provider batches of the watchlist worker: the job lock, retries and duplicate deliveries. */
module WorkerBatches {
  import opened SlidingWindow
  import opened Sorting

  /** Set number to the users who watch it. */
  type Batch = map<string, seq<int>>

  datatype Message = Message(provider: string, batch: Batch)

  /** The identity of a job: the hashed payload lists each set's users in sorted order. */
  datatype Key = Key(provider: string, sets: map<string, seq<int>>)

  /** One piece of work: refresh a set at a provider on behalf of a user. */
  datatype Item = Item(provider: string, setNumber: string, user: int)

  predicate Carries(m: Message, item: Item) {
    m.provider == item.provider && item.setNumber in m.batch && item.user in m.batch[item.setNumber]
  }

  // ---------------------------------------------------------------- the lock key

  function ById(): int -> int { x => x }

  /** Each set's users in sorted order. */
  function Canonical(batch: Batch): map<string, seq<int>> {
    map s | s in batch :: Sort(batch[s], ById())
  }

  /** `_job_lock_key`. */
  function LockKey(m: Message): Key { Key(m.provider, Canonical(m.batch)) }

  lemma {:induction false} SameWhenSorted(a: seq<int>, b: seq<int>)
    requires OrderedBy(a, ById()) && OrderedBy(b, ById()) && multiset(a) == multiset(b)
    ensures a == b
  {
    if a == [] || b == [] {
      assert |multiset(a)| == |a| && |multiset(b)| == |b|;
    } else {
      var a', b', x := a[..|a| - 1], b[..|b| - 1], a[|a| - 1];
      SameLast(a, b);
      WithoutLast(a);
      WithoutLast(b);
      CancelOne(multiset(a'), multiset(b'), x);
      SameWhenSorted(a', b');
    }
  }

  lemma WithoutLast(s: seq<int>)
    requires s != []
    ensures multiset(s) == multiset(s[..|s| - 1]) + multiset{s[|s| - 1]}
  {
    assert s == s[..|s| - 1] + [s[|s| - 1]];
  }

  lemma CancelOne(m: multiset<int>, n: multiset<int>, x: int)
    requires m + multiset{x} == n + multiset{x}
    ensures m == n
  {
    forall y ensures m[y] == n[y] {
      assert (m + multiset{x})[y] == (n + multiset{x})[y];
    }
  }

  lemma SameLast(a: seq<int>, b: seq<int>)
    requires OrderedBy(a, ById()) && OrderedBy(b, ById()) && multiset(a) == multiset(b)
    requires a != [] && b != []
    ensures a[|a| - 1] == b[|b| - 1]
  {
    var x, y := a[|a| - 1], b[|b| - 1];
    assert x in multiset(a) && y in multiset(b);
    assert x in b && y in a;
    LastIsGreatest(a, y);
    LastIsGreatest(b, x);
  }

  lemma LastIsGreatest(s: seq<int>, x: int)
    requires OrderedBy(s, ById()) && x in s
    ensures x <= s[|s| - 1]
  {
    var i :| 0 <= i < |s| && s[i] == x;
    assert i < |s| - 1 ==> ById()(s[i]) <= ById()(s[|s| - 1]);
  }

  /** The same sets, each with the same users in any order. */
  ghost predicate SameJob(m: Message, n: Message) {
    && m.provider == n.provider
    && m.batch.Keys == n.batch.Keys
    && forall s :: s in m.batch ==> multiset(m.batch[s]) == multiset(n.batch[s])
  }

  lemma SameSorted(a: seq<int>, b: seq<int>)
    ensures Sort(a, ById()) == Sort(b, ById()) <==> multiset(a) == multiset(b)
  {
    SortPermutes(a, ById());
    SortPermutes(b, ById());
    SortOrders(a, ById());
    SortOrders(b, ById());
    if multiset(a) == multiset(b) {
      SameWhenSorted(Sort(a, ById()), Sort(b, ById()));
    }
  }

  lemma CanonicalWhenSame(b: Batch, c: Batch)
    requires b.Keys == c.Keys && forall s :: s in b ==> multiset(b[s]) == multiset(c[s])
    ensures Canonical(b) == Canonical(c)
  {
    forall s | s in b ensures Canonical(b)[s] == Canonical(c)[s] {
      SameSorted(b[s], c[s]);
    }
  }

  lemma SameWhenCanonical(b: Batch, c: Batch)
    requires Canonical(b) == Canonical(c)
    ensures b.Keys == c.Keys && forall s :: s in b ==> multiset(b[s]) == multiset(c[s])
  {
    assert Canonical(b).Keys == b.Keys && Canonical(c).Keys == c.Keys;
    forall s | s in b ensures multiset(b[s]) == multiset(c[s]) {
      assert Canonical(b)[s] == Canonical(c)[s];
      SameSorted(b[s], c[s]);
    }
  }

  /** Two messages share a lock exactly when they are the same job. */
  lemma LockKeyIsExact(m: Message, n: Message)
    ensures LockKey(m) == LockKey(n) <==> SameJob(m, n)
  {
    if LockKey(m) == LockKey(n) {
      SameWhenCanonical(m.batch, n.batch);
    }
    if SameJob(m, n) {
      CanonicalWhenSame(m.batch, n.batch);
    }
  }

  lemma SameJobCarriesSame(m: Message, n: Message, item: Item)
    requires SameJob(m, n)
    ensures Carries(m, item) <==> Carries(n, item)
  {
    if item.setNumber in m.batch {
      assert item.user in m.batch[item.setNumber] <==> item.user in multiset(m.batch[item.setNumber]);
      assert item.user in n.batch[item.setNumber] <==> item.user in multiset(n.batch[item.setNumber]);
    }
  }

  // ---------------------------------------------------------------- the protocol, step by step

  /** How Redis answers a command: it does, it cannot be reached, or it acts but the reply is lost. */
  datatype Redis = Answers | Down | ReplyLost

  /** A delivery at work: running, retry scheduled after an exception, committed with what
      failed, and with the lock given back. */
  datatype Phase = Working | Retrying | Committed(failed: Batch) | Released(failed: Batch)

  datatype Task = Task(message: Message, phase: Phase)

  /** Messages waiting at the broker (new, or waiting for their retry), deliveries at work, and locks in Redis. */
  datatype World = World(queue: map<int, Message>, tasks: map<int, Task>, locks: set<Key>)

  datatype Step =
    | Dispatches(id: int, message: Message)
    | Duplicates(id: int, copy: int)
    | Delivers(id: int, reply: Redis)
    | Raises(id: int, retry: int)
    | Commits(id: int, refreshed: set<string>)
    | Releases(id: int, deleted: bool)
    | Concludes(id: int, retry: int)

  predicate Unused(w: World, id: int) { id !in w.queue && id !in w.tasks }

  predicate InPhase(w: World, id: int, working: bool) {
    id in w.tasks && w.tasks[id].phase.Working? == working
  }

  /** The sets that were not refreshed. */
  function Failed(batch: Batch, refreshed: set<string>): Batch {
    map s | s in batch && s !in refreshed :: batch[s]
  }

  /** A delivery takes the lock, is skipped as a duplicate, or is sent back for a retry. */
  function Deliver(w: World, id: int, reply: Redis): World {
    if id !in w.queue || id in w.tasks then w else
      var m := w.queue[id];
      match reply
      case Down => w
      case ReplyLost => w.(locks := w.locks + {LockKey(m)})
      case Answers =>
        if LockKey(m) in w.locks then w.(queue := w.queue - {id})
        else World(w.queue - {id}, w.tasks[id := Task(m, Working)], w.locks + {LockKey(m)})
  }

  function Release(w: World, id: int, deleted: bool): World {
    if id !in w.tasks then w else
      var t := w.tasks[id];
      var locks := if deleted then w.locks - {LockKey(t.message)} else w.locks;
      match t.phase
      case Retrying => World(w.queue, w.tasks - {id}, locks)
      case Committed(failed) => World(w.queue, w.tasks[id := Task(t.message, Released(failed))], locks)
      case _ => w
  }

  function Conclude(w: World, id: int, retry: int): World {
    if id !in w.tasks || !w.tasks[id].phase.Released? || !Unused(w, retry) then w else
      var t := w.tasks[id];
      World(if t.phase.failed == map[] then w.queue else w.queue[retry := Message(t.message.provider, t.phase.failed)],
            w.tasks - {id}, w.locks)
  }

  /** One step; a step that is not possible changes nothing. */
  function Next(w: World, step: Step): World {
    match step
    case Dispatches(id, message) => if Unused(w, id) then w.(queue := w.queue[id := message]) else w
    case Duplicates(id, copy) =>
      if !Unused(w, copy) then w
      else if id in w.queue then w.(queue := w.queue[copy := w.queue[id]])
      else if id in w.tasks then w.(queue := w.queue[copy := w.tasks[id].message])
      else w
    case Delivers(id, reply) => Deliver(w, id, reply)
    case Raises(id, retry) =>
      if !InPhase(w, id, true) || !Unused(w, retry) then w
      else w.(queue := w.queue[retry := w.tasks[id].message], tasks := w.tasks[id := Task(w.tasks[id].message, Retrying)])
    case Commits(id, refreshed) =>
      if !InPhase(w, id, true) then w
      else w.(tasks := w.tasks[id := Task(w.tasks[id].message, Committed(Failed(w.tasks[id].message.batch, refreshed)))])
    case Releases(id, deleted) => Release(w, id, deleted)
    case Concludes(id, retry) => Conclude(w, id, retry)
  }

  function Run(steps: History<Step>): World {
    match steps
    case Start => World(map[], map[], {})
    case Then(before, step) => Next(Run(before), step)
  }

  // ---------------------------------------------------------------- two deliveries of a job never run together

  predicate Holds(w: World, id: int) { id in w.tasks && !w.tasks[id].phase.Released? }

  ghost predicate LockedBy(w: World, id: int) {
    Holds(w, id) ==> LockKey(w.tasks[id].message) in w.locks
  }

  ghost predicate Apart(w: World, i: int, j: int) {
    Holds(w, i) && Holds(w, j) && i != j ==> LockKey(w.tasks[i].message) != LockKey(w.tasks[j].message)
  }

  ghost predicate Inv(w: World) {
    (forall id :: LockedBy(w, id)) && (forall i, j :: Apart(w, i, j))
  }

  lemma NextKeepsInv(w: World, step: Step)
    requires Inv(w)
    ensures Inv(Next(w, step))
  {
    var w' := Next(w, step);
    forall id ensures LockedBy(w', id) {
      assert LockedBy(w, id);
      assert step.Releases? ==> Apart(w, id, step.id);
    }
    forall i, j ensures Apart(w', i, j) {
      assert Apart(w, i, j) && LockedBy(w, i) && LockedBy(w, j);
    }
  }

  lemma {:induction false} RunKeepsInv(steps: History<Step>)
    ensures Inv(Run(steps))
  {
    if steps.Then? {
      RunKeepsInv(steps.before);
      NextKeepsInv(Run(steps.before), steps.latest);
    }
  }

  /** Whatever Redis loses and the broker duplicates: of the deliveries of one job at most one is
      between taking the lock and giving it back. */
  lemma NeverTogether(steps: History<Step>, i: int, j: int)
    requires Holds(Run(steps), i) && Holds(Run(steps), j) && i != j
    ensures !SameJob(Run(steps).tasks[i].message, Run(steps).tasks[j].message)
  {
    RunKeepsInv(steps);
    assert Apart(Run(steps), i, j);
    LockKeyIsExact(Run(steps).tasks[i].message, Run(steps).tasks[j].message);
  }

  // ---------------------------------------------------------------- work stays owed

  /** What a delivery at work will still refresh or hand back. */
  predicate Answerable(t: Task, item: Item) {
    match t.phase
    case Working => Carries(t.message, item)
    case Retrying => false
    case Committed(failed) => Carries(Message(t.message.provider, failed), item)
    case Released(failed) => Carries(Message(t.message.provider, failed), item)
  }

  predicate Queued(w: World, id: int, item: Item) { id in w.queue && Carries(w.queue[id], item) }
  predicate AtWork(w: World, id: int, item: Item) { id in w.tasks && Answerable(w.tasks[id], item) }

  /** Queued, running, or waiting for a retry. */
  ghost predicate Owed(w: World, item: Item) {
    (exists id :: Queued(w, id, item)) || (exists id :: AtWork(w, id, item))
  }

  /** The step commits a run that refreshed the item. */
  predicate Refreshes(w: World, step: Step, item: Item) {
    step.Commits? && InPhase(w, step.id, true) && Carries(w.tasks[step.id].message, item) && item.setNumber in step.refreshed
  }

  /** The step drops a delivery as a duplicate. */
  predicate Skips(w: World, step: Step) {
    step.Delivers? && step.reply == Answers && step.id in w.queue && step.id !in w.tasks && LockKey(w.queue[step.id]) in w.locks
  }

  /** A run that took this lock has not committed or failed yet. */
  ghost predicate HolderWorks(w: World, key: Key) {
    exists id :: InPhase(w, id, true) && LockKey(w.tasks[id].message) == key
  }

  /** Another message or run answers for the item as well. */
  ghost predicate CarriedBeside(w: World, id: int, item: Item) {
    (exists j :: j != id && Queued(w, j, item)) || (exists j :: AtWork(w, j, item))
  }

  /** Dropping a duplicate keeps an item owed exactly when something else carries it. */
  lemma SkipIsExact(w: World, step: Step, item: Item)
    requires Skips(w, step)
    ensures Owed(Next(w, step), item) <==> CarriedBeside(w, step.id, item)
  {
    var w' := Next(w, step);
    forall j ensures Queued(w', j, item) <==> j != step.id && Queued(w, j, item) {
    }
    forall j ensures AtWork(w', j, item) <==> AtWork(w, j, item) {
    }
  }

  /** While the holder of the lock works, everything the duplicate carries is carried beside it. */
  lemma WorkingHolderCarries(w: World, step: Step, item: Item)
    requires Skips(w, step) && HolderWorks(w, LockKey(w.queue[step.id])) && Carries(w.queue[step.id], item)
    ensures CarriedBeside(w, step.id, item)
  {
    var j :| InPhase(w, j, true) && LockKey(w.tasks[j].message) == LockKey(w.queue[step.id]);
    LockKeyIsExact(w.tasks[j].message, w.queue[step.id]);
    SameJobCarriesSame(w.tasks[j].message, w.queue[step.id], item);
    assert AtWork(w, j, item);
  }

  /** Where a queued item is after a step that neither refreshes it nor skips its message. */
  lemma QueuedStaysOwed(w: World, step: Step, item: Item, id: int)
    requires Queued(w, id, item) && !Skips(w, step)
    ensures Owed(Next(w, step), item)
  {
    var w' := Next(w, step);
    if step.Delivers? && step.id == id && id !in w.tasks && step.reply == Answers {
      assert AtWork(w', id, item);
    } else {
      assert Queued(w', id, item);
    }
  }

  lemma AtWorkStaysOwed(w: World, step: Step, item: Item, id: int)
    requires AtWork(w, id, item) && !Refreshes(w, step, item)
    ensures Owed(Next(w, step), item)
  {
    var w' := Next(w, step);
    if step.Raises? && step.id == id && InPhase(w, id, true) && Unused(w, step.retry) {
      assert Queued(w', step.retry, item);
    } else if step.Concludes? && step.id == id && w.tasks[id].phase.Released? && Unused(w, step.retry) {
      assert item.setNumber in w.tasks[id].phase.failed;
      assert Queued(w', step.retry, item);
    } else {
      assert AtWork(w', id, item);
    }
  }

  /** An item stops being owed only when a run that refreshed it commits, or when a duplicate is
      dropped although nothing else carries it. */
  lemma StepKeepsOwed(w: World, step: Step, item: Item)
    requires Owed(w, item) && !Refreshes(w, step, item)
    requires Skips(w, step) ==> Carries(w.queue[step.id], item) ==> CarriedBeside(w, step.id, item)
    ensures Owed(Next(w, step), item)
  {
    if Skips(w, step) {
      SkipIsExact(w, step, item);
      assert Owed(w, item) ==> CarriedBeside(w, step.id, item) || Queued(w, step.id, item);
    } else if id :| Queued(w, id, item) {
      QueuedStaysOwed(w, step, item, id);
    } else {
      var id :| AtWork(w, id, item);
      AtWorkStaysOwed(w, step, item, id);
    }
  }

  /** Dispatched, and no run that refreshed it has committed since. */
  ghost predicate Due(steps: History<Step>, item: Item) {
    steps.Then? &&
    var w, step := Run(steps.before), steps.latest;
    || (step.Dispatches? && Unused(w, step.id) && Carries(step.message, item))
    || (Due(steps.before, item) && !Refreshes(w, step, item))
  }

  // ---------------------------------------------------------------- when nothing is ever dropped

  /** The number of steps so far, which serves as the time. */
  function Ticks(steps: History<Step>): nat {
    if steps.Start? then 0 else Ticks(steps.before) + 1
  }

  /** When a message was published: dispatched, or scheduled as a retry.  A copy of the
      broker's is as old as its original, and a delivery as its message. */
  function Published(steps: History<Step>, id: int): nat {
    if steps.Start? then 0 else
      var w := Run(steps.before);
      match steps.latest
      case Dispatches(i, _) => if i == id && Unused(w, id) then Ticks(steps) else Published(steps.before, id)
      case Duplicates(i, copy) =>
        if copy == id && Unused(w, id) then Published(steps.before, i) else Published(steps.before, id)
      case Raises(i, retry) => if retry == id && Unused(w, id) && InPhase(w, i, true) then Ticks(steps) else Published(steps.before, id)
      case Concludes(i, retry) => if retry == id && Unused(w, id) then Ticks(steps) else Published(steps.before, id)
      case _ => Published(steps.before, id)
  }

  /** When a delivery's work ended, by a commit or by an exception. */
  function Ended(steps: History<Step>, id: int): nat {
    if steps.Start? then 0 else
      var step := steps.latest;
      if (step.Raises? || step.Commits?) && step.id == id && InPhase(Run(steps.before), id, true)
         && (step.Raises? ==> Unused(Run(steps.before), step.retry))
      then Ticks(steps) else Ended(steps.before, id)
  }

  /** The message a delivery that raised is retried as. */
  function RetryOf(steps: History<Step>, id: int): int {
    if steps.Start? then id else
      var step := steps.latest;
      if step.Raises? && step.id == id && InPhase(Run(steps.before), id, true) && Unused(Run(steps.before), step.retry)
      then step.retry else RetryOf(steps.before, id)
  }

  /** When a run that refreshed the item last committed. */
  function LastRefresh(steps: History<Step>, item: Item): nat {
    if steps.Start? then 0
    else if Refreshes(Run(steps.before), steps.latest, item) then Ticks(steps)
    else LastRefresh(steps.before, item)
  }

  /** The work is over, and the lock not given back. */
  predicate PastWork(w: World, id: int) { Holds(w, id) && !w.tasks[id].phase.Working? }

  /** A duplicate whose lock is held by a run past its work was published before that work ended. */
  ghost predicate Timely(steps: History<Step>, step: Step) {
    Skips(Run(steps), step) ==> forall t :: SkippedBehind(Run(steps), step, t) ==> Published(steps, step.id) < Ended(steps, t)
  }

  predicate SkippedBehind(w: World, step: Step, t: int)
    requires Skips(w, step)
  {
    PastWork(w, t) && LockKey(w.tasks[t].message) == LockKey(w.queue[step.id])
  }

  predicate HearsReplies(steps: History<Step>) {
    steps.Then? ==> HearsReplies(steps.before) && (steps.latest.Delivers? ==> steps.latest.reply != ReplyLost)
  }

  predicate DeletesLocks(steps: History<Step>) {
    steps.Then? ==> DeletesLocks(steps.before) && (steps.latest.Releases? ==> steps.latest.deleted)
  }

  ghost predicate DeliversTimely(steps: History<Step>) {
    steps.Then? ==> DeliversTimely(steps.before) && Timely(steps.before, steps.latest)
  }

  /** No reply to taking a lock is lost, every lock is deleted when it is released, and no message
      published after a run's work ended is delivered before that run gave the lock back. */
  ghost predicate Orderly(steps: History<Step>) {
    HearsReplies(steps) && DeletesLocks(steps) && DeliversTimely(steps)
  }

  ghost predicate HasHolder(w: World, key: Key) {
    exists id :: Holds(w, id) && LockKey(w.tasks[id].message) == key
  }

  ghost predicate LocksHeld(w: World) {
    forall key :: key in w.locks ==> HasHolder(w, key)
  }

  /** While a delivery that raised keeps its lock, its retry waits at the broker. */
  ghost predicate RetryWaits(steps: History<Step>, id: int) {
    var w := Run(steps);
    id in w.tasks && w.tasks[id].phase.Retrying? ==>
      var r := RetryOf(steps, id);
      && r in w.queue && r !in w.tasks && w.queue[r] == w.tasks[id].message
      && Ended(steps, id) <= Published(steps, r)
  }

  lemma {:induction false} OrderlyKeepsLocks(steps: History<Step>)
    requires Orderly(steps)
    ensures LocksHeld(Run(steps))
  {
    if steps.Then? {
      var w, w', step := Run(steps.before), Run(steps), steps.latest;
      OrderlyKeepsLocks(steps.before);
      RunKeepsInv(steps.before);
      forall key | key in w'.locks ensures HasHolder(w', key) {
        if key in w.locks {
          var id :| Holds(w, id) && LockKey(w.tasks[id].message) == key;
          assert LockedBy(w, id);
          assert step.Releases? ==> Apart(w, id, step.id);
          assert Holds(w', id) && LockKey(w'.tasks[id].message) == key;
        } else {
          assert Holds(w', step.id) && LockKey(w'.tasks[step.id].message) == key;
        }
      }
    }
  }

  lemma {:induction false} OrderlyKeepsRetries(steps: History<Step>, id: int)
    requires Orderly(steps)
    ensures RetryWaits(steps, id)
  {
    if steps.Then? {
      var w, w', step := Run(steps.before), Run(steps), steps.latest;
      OrderlyKeepsRetries(steps.before, id);
      RunKeepsInv(steps.before);
      assert LockedBy(w, id);
      if id in w.tasks && w.tasks[id].phase.Retrying? && step.Delivers? && step.id == RetryOf(steps.before, id) && step.reply == Answers {
        assert Skips(w, step) && SkippedBehind(w, step, id);
      }
    }
  }

  /** A carrier that the item's refreshes so far cannot have served. */
  predicate WaitsAnew(steps: History<Step>, id: int, item: Item) {
    Queued(Run(steps), id, item) && LastRefresh(steps, item) < Published(steps, id)
  }

  predicate WorksAnew(steps: History<Step>, id: int, item: Item) {
    && AtWork(Run(steps), id, item)
    && (Run(steps).tasks[id].phase.Working? || LastRefresh(steps, item) < Ended(steps, id))
  }

  ghost predicate CarriedAnew(steps: History<Step>, item: Item) {
    (exists id :: WaitsAnew(steps, id, item)) || (exists id :: WorksAnew(steps, id, item))
  }

  lemma {:induction false} RefreshesAreEarlier(steps: History<Step>, item: Item)
    ensures LastRefresh(steps, item) <= Ticks(steps)
  {
    if steps.Then? {
      RefreshesAreEarlier(steps.before, item);
    }
  }

  /** A duplicate skipped behind a working, a committed or a failed run leaves the item with that
      run, with what it will hand back, or with its retry. */
  lemma SkipLeavesCarrier(steps: History<Step>, step: Step, item: Item)
    requires Orderly(Then(steps, step)) && Skips(Run(steps), step) && WaitsAnew(steps, step.id, item)
    ensures CarriedAnew(Then(steps, step), item)
  {
    var w, after := Run(steps), Then(steps, step);
    var key := LockKey(w.queue[step.id]);
    OrderlyKeepsLocks(steps);
    assert HasHolder(w, key);
    var t :| Holds(w, t) && LockKey(w.tasks[t].message) == key;
    LockKeyIsExact(w.tasks[t].message, w.queue[step.id]);
    SameJobCarriesSame(w.tasks[t].message, w.queue[step.id], item);
    if w.tasks[t].phase.Working? {
      assert WorksAnew(after, t, item);
    } else {
      assert SkippedBehind(w, step, t);
      if w.tasks[t].phase.Retrying? {
        OrderlyKeepsRetries(steps, t);
        OrderlyKeepsRetries(after, t);
        assert WaitsAnew(after, RetryOf(steps, t), item);
      } else {
        CommittedServesOrCarries(steps, t, item);
        assert WorksAnew(after, t, item);
      }
    }
  }

  /** A committed run refreshed each item it carried, or hands it back. */
  lemma {:induction false} CommittedServesOrCarries(steps: History<Step>, t: int, item: Item)
    requires t in Run(steps).tasks && Carries(Run(steps).tasks[t].message, item)
    requires Run(steps).tasks[t].phase.Committed?
    ensures AtWork(Run(steps), t, item) || Ended(steps, t) <= LastRefresh(steps, item)
  {
    var w, step := Run(steps.before), steps.latest;
    if t in w.tasks && w.tasks[t].phase.Committed? {
      CommittedServesOrCarries(steps.before, t, item);
      RefreshesAreEarlier(steps.before, item);
      EndedIsEarlier(steps.before, t);
    }
  }

  lemma {:induction false} EndedIsEarlier(steps: History<Step>, t: int)
    ensures Ended(steps, t) <= Ticks(steps)
  {
    if steps.Then? {
      EndedIsEarlier(steps.before, t);
    }
  }

  lemma WaitingStaysCarried(steps: History<Step>, step: Step, item: Item, id: int)
    requires Orderly(Then(steps, step)) && WaitsAnew(steps, id, item) && !Refreshes(Run(steps), step, item)
    ensures CarriedAnew(Then(steps, step), item)
  {
    var w, after := Run(steps), Then(steps, step);
    if Skips(w, step) && step.id == id {
      SkipLeavesCarrier(steps, step, item);
    } else if step.Delivers? && step.id == id && step.reply == Answers && id !in w.tasks {
      assert WorksAnew(after, id, item);
    } else {
      assert WaitsAnew(after, id, item);
    }
  }

  lemma WorkingStaysCarried(steps: History<Step>, step: Step, item: Item, id: int)
    requires WorksAnew(steps, id, item) && !Refreshes(Run(steps), step, item)
    ensures CarriedAnew(Then(steps, step), item)
  {
    var w, after := Run(steps), Then(steps, step);
    RefreshesAreEarlier(steps, item);
    if step.Raises? && step.id == id && InPhase(w, id, true) && Unused(w, step.retry) {
      assert WaitsAnew(after, step.retry, item);
    } else if step.Concludes? && step.id == id && w.tasks[id].phase.Released? && Unused(w, step.retry) {
      assert item.setNumber in w.tasks[id].phase.failed;
      assert WaitsAnew(after, step.retry, item);
    } else {
      assert WorksAnew(after, id, item);
    }
  }

  lemma {:induction false} DueIsCarriedAnew(steps: History<Step>, item: Item)
    requires Orderly(steps) && Due(steps, item)
    ensures CarriedAnew(steps, item)
  {
    var w, step := Run(steps.before), steps.latest;
    if step.Dispatches? && Unused(w, step.id) && Carries(step.message, item) {
      RefreshesAreEarlier(steps.before, item);
      assert WaitsAnew(steps, step.id, item);
    } else {
      DueIsCarriedAnew(steps.before, item);
      if id :| WaitsAnew(steps.before, id, item) {
        WaitingStaysCarried(steps.before, step, item, id);
      } else {
        var id :| WorksAnew(steps.before, id, item);
        WorkingStaysCarried(steps.before, step, item, id);
      }
    }
  }

  /** In an orderly run nothing is ever dropped: whatever the broker duplicates and whichever sets
      and runs fail, every dispatched set is queued, running or waiting for its retry until a run
      that refreshed it has committed. */
  lemma NothingIsDropped(steps: History<Step>, item: Item)
    requires Orderly(steps) && Due(steps, item)
    ensures Owed(Run(steps), item)
  {
    DueIsCarriedAnew(steps, item);
    if id :| WaitsAnew(steps, id, item) {
      assert Queued(Run(steps), id, item);
    } else {
      var id :| WorksAnew(steps, id, item);
      assert AtWork(Run(steps), id, item);
    }
  }

  // ---------------------------------------------------------------- each condition is needed

  /** The item is due, and nothing answers for it any more. */
  ghost predicate Dropped(steps: History<Step>, item: Item) {
    Due(steps, item) && !Owed(Run(steps), item)
  }

  lemma AloneIsDropped(steps: History<Step>, id: int, m: Message, item: Item)
    requires Run(steps).queue == map[id := m] && id !in Run(steps).tasks && LockKey(m) in Run(steps).locks
    requires forall j :: !AtWork(Run(steps), j, item)
    requires Due(steps, item)
    ensures Dropped(Then(steps, Delivers(id, Answers)), item)
  {
    SkipIsExact(Run(steps), Delivers(id, Answers), item);
  }

  lemma DispatchAndTake(m: Message)
    ensures
      var taken := Then(Then(Start, Dispatches(1, m)), Delivers(1, Answers));
      && Run(taken) == World(map[], map[1 := Task(m, Working)], {LockKey(m)})
      && Orderly(taken)
      && forall item :: Carries(m, item) ==> Due(taken, item)
  {
    var dispatched := Then(Start, Dispatches(1, m));
    assert Run(dispatched) == World(map[1 := m], map[], {});
    assert Orderly(dispatched);
    assert forall item :: Carries(m, item) ==> Due(dispatched, item);
  }

  /** Only a lock is not deleted: a failed run schedules its retry, which finds the lock and is
      dropped as a duplicate of nothing. */
  lemma OrphanedLockDrops(m: Message, item: Item) returns (steps: History<Step>)
    requires Carries(m, item)
    ensures HearsReplies(steps) && DeliversTimely(steps) && Dropped(steps, item)
  {
    var working := Then(Then(Start, Dispatches(1, m)), Delivers(1, Answers));
    var raised := Then(working, Raises(1, 2));
    var orphaned := Then(raised, Releases(1, false));
    DispatchAndTake(m);
    assert Run(raised) == World(map[2 := m], map[1 := Task(m, Retrying)], {LockKey(m)});
    assert Run(orphaned) == World(map[2 := m], map[], {LockKey(m)});
    assert Due(raised, item) && Due(orphaned, item);
    AloneIsDropped(orphaned, 2, m, item);
    steps := Then(orphaned, Delivers(2, Answers));
  }

  /** Only a reply to taking the lock is lost: the delivery is retried and finds its own lock. */
  lemma LostReplyDrops(m: Message, item: Item) returns (steps: History<Step>)
    requires Carries(m, item)
    ensures DeletesLocks(steps) && DeliversTimely(steps) && Dropped(steps, item)
  {
    var dispatched := Then(Start, Dispatches(1, m));
    var lost := Then(dispatched, Delivers(1, ReplyLost));
    assert Run(dispatched) == World(map[1 := m], map[], {});
    assert Run(lost) == World(map[1 := m], map[], {LockKey(m)});
    assert Due(dispatched, item) && Due(lost, item);
    assert DeletesLocks(dispatched) && DeliversTimely(dispatched) && DeliversTimely(lost);
    AloneIsDropped(lost, 1, m, item);
    steps := Then(lost, Delivers(1, Answers));
  }

  /** Only a delivery is untimely: a job dispatched again between the commit of its last run and
      the release of the lock. */
  lemma DispatchBeforeReleaseDrops(m: Message, item: Item) returns (steps: History<Step>)
    requires Carries(m, item)
    ensures HearsReplies(steps) && DeletesLocks(steps) && Dropped(steps, item)
  {
    var working := Then(Then(Start, Dispatches(1, m)), Delivers(1, Answers));
    var committed := Then(working, Commits(1, m.batch.Keys));
    var again := Then(committed, Dispatches(2, m));
    DispatchAndTake(m);
    assert Failed(m.batch, m.batch.Keys) == map[];
    assert Run(committed) == World(map[], map[1 := Task(m, Committed(map[]))], {LockKey(m)});
    assert Run(again) == World(map[2 := m], map[1 := Task(m, Committed(map[]))], {LockKey(m)});
    AloneIsDropped(again, 2, m, item);
    steps := Then(again, Delivers(2, Answers));
  }

  /** Only a delivery is untimely: a run that raised schedules its retry before it gives the lock
      back, and the retry is delivered in between. */
  lemma RetryBeforeReleaseDrops(m: Message, item: Item) returns (steps: History<Step>)
    requires Carries(m, item)
    ensures HearsReplies(steps) && DeletesLocks(steps) && Dropped(steps, item)
  {
    var working := Then(Then(Start, Dispatches(1, m)), Delivers(1, Answers));
    var raised := Then(working, Raises(1, 2));
    DispatchAndTake(m);
    assert Run(raised) == World(map[2 := m], map[1 := Task(m, Retrying)], {LockKey(m)});
    assert Due(raised, item);
    AloneIsDropped(raised, 2, m, item);
    steps := Then(raised, Delivers(2, Answers));
  }

  /** Only a delivery is untimely, and no job is dispatched twice: what a larger batch hands back
      is another job, whose own run has committed and not given its lock back. */
  lemma HandedBackBeforeReleaseDrops(item: Item, users: seq<int>, other: string) returns (steps: History<Step>)
    requires item.user in users && other != item.setNumber
    ensures HearsReplies(steps) && DeletesLocks(steps) && Dropped(steps, item)
  {
    var small := Message(item.provider, map[item.setNumber := users]);
    var large := Message(item.provider, map[item.setNumber := users, other := users]);
    assert other in Canonical(large.batch) && other !in Canonical(small.batch);
    assert small.batch[other := users] == large.batch;
    var one := Then(Then(Then(Start, Dispatches(1, small)), Delivers(1, Answers)), Commits(1, small.batch.Keys));
    RunToCommit(small);
    var dispatched := Then(one, Dispatches(2, large));
    var two := Then(dispatched, Delivers(2, Answers));
    RunBeside(one, small, large);
    assert Due(dispatched, item) && Due(two, item);
    assert HearsReplies(dispatched) && DeletesLocks(dispatched);
    steps := HandBack(two, item, small, large, other);
  }

  lemma RunToCommit(m: Message)
    ensures
      var steps := Then(Then(Then(Start, Dispatches(1, m)), Delivers(1, Answers)), Commits(1, m.batch.Keys));
      && Run(steps) == World(map[], map[1 := Task(m, Committed(map[]))], {LockKey(m)})
      && HearsReplies(steps) && DeletesLocks(steps)
  {
    DispatchAndTake(m);
    assert Failed(m.batch, m.batch.Keys) == map[];
  }

  lemma RunBeside(one: History<Step>, small: Message, large: Message)
    requires Run(one) == World(map[], map[1 := Task(small, Committed(map[]))], {LockKey(small)})
    requires LockKey(small) != LockKey(large)
    ensures Run(Then(Then(one, Dispatches(2, large)), Delivers(2, Answers)))
         == World(map[], map[1 := Task(small, Committed(map[])), 2 := Task(large, Working)], {LockKey(small), LockKey(large)})
  {
    assert Run(Then(one, Dispatches(2, large))) == World(map[2 := large], Run(one).tasks, {LockKey(small)});
    assert {LockKey(small)} + {LockKey(large)} == {LockKey(small), LockKey(large)};
  }

  lemma HandBack(two: History<Step>, item: Item, small: Message, large: Message, other: string) returns (steps: History<Step>)
    requires small.provider == large.provider && small.batch.Keys == {item.setNumber} && other != item.setNumber
    requires large.batch == small.batch[other := small.batch[item.setNumber]] && LockKey(small) != LockKey(large)
    requires Run(two) == World(map[], map[1 := Task(small, Committed(map[])), 2 := Task(large, Working)],
                               {LockKey(small), LockKey(large)})
    requires Due(two, item) && HearsReplies(two) && DeletesLocks(two)
    ensures HearsReplies(steps) && DeletesLocks(steps) && Dropped(steps, item)
  {
    var back := Then(Then(Then(two, Commits(2, {other})), Releases(2, true)), Concludes(2, 3));
    assert Failed(large.batch, {other}) == small.batch;
    HandedBack(two, small, large, {other});
    assert Due(Then(two, Commits(2, {other})), item);
    assert Due(Then(Then(two, Commits(2, {other})), Releases(2, true)), item) && Due(back, item);
    assert HearsReplies(Then(Then(two, Commits(2, {other})), Releases(2, true)));
    assert DeletesLocks(Then(Then(two, Commits(2, {other})), Releases(2, true)));
    AloneIsDropped(back, 3, small, item);
    steps := Then(back, Delivers(3, Answers));
  }

  lemma HandedBack(two: History<Step>, small: Message, large: Message, refreshed: set<string>)
    requires small.provider == large.provider && LockKey(small) != LockKey(large)
    requires Failed(large.batch, refreshed) == small.batch != map[]
    requires Run(two) == World(map[], map[1 := Task(small, Committed(map[])), 2 := Task(large, Working)],
                               {LockKey(small), LockKey(large)})
    ensures Run(Then(Then(Then(two, Commits(2, refreshed)), Releases(2, true)), Concludes(2, 3)))
         == World(map[3 := small], map[1 := Task(small, Committed(map[]))], {LockKey(small)})
  {
    var committed := Then(two, Commits(2, refreshed));
    assert Run(committed) == Run(two).(tasks := Run(two).tasks[2 := Task(large, Committed(small.batch))]);
    HandBackSteps(Run(committed), small, large);
  }

  lemma HandBackSteps(w: World, small: Message, large: Message)
    requires small.provider == large.provider && LockKey(small) != LockKey(large) && small.batch != map[]
    requires w.queue == map[] && w.locks == {LockKey(small), LockKey(large)} && w.tasks.Keys == {1, 2}
    requires w.tasks[1] == Task(small, Committed(map[])) && w.tasks[2] == Task(large, Committed(small.batch))
    ensures Next(Next(w, Releases(2, true)), Concludes(2, 3))
         == World(map[3 := small], map[1 := Task(small, Committed(map[]))], {LockKey(small)})
  {
    var released := Next(w, Releases(2, true));
    assert w.locks - {LockKey(large)} == {LockKey(small)};
    assert released == World(map[], w.tasks[2 := Task(large, Released(small.batch))], {LockKey(small)});
    assert released.tasks - {2} == map[1 := Task(small, Committed(map[]))];
  }

  // ---------------------------------------------------------------- one delivery, uninterrupted

  datatype Outcome = RateLimited | ProviderFailed | Refreshed

  /** What the outside world does to one delivery. */
  datatype Environment = Environment(reply: Redis, outcomes: string -> Outcome, raised: bool, deleted: bool)

  function RefreshedSets(batch: Batch, outcomes: string -> Outcome): set<string> {
    set s | s in batch && outcomes(s) == Refreshed
  }

  function Members(users: seq<int>): set<int> { set u | u in users }

  function UsersOf(batch: Batch, sets: set<string>): set<int> {
    set s, u | s in sets && s in batch && u in batch[s] :: u
  }

  /** The steps of a delivery that nothing interleaves with. */
  function Completed(w: World, id: int, retry: int, env: Environment): World {
    var taken := Deliver(w, id, env.reply);
    if !InPhase(taken, id, true) then taken
    else if env.raised then Next(Next(taken, Raises(id, retry)), Releases(id, env.deleted))
    else
      var refreshed := RefreshedSets(taken.tasks[id].message.batch, env.outcomes);
      Next(Next(Next(taken, Commits(id, refreshed)), Releases(id, env.deleted)), Concludes(id, retry))
  }

  /** The loop of `_refresh_provider_batch`: every set is refreshed or kept for the retry. */
  method RefreshSets(batch: Batch, outcomes: string -> Outcome)
    returns (successful: nat, affected: set<int>, failed: Batch)
    ensures failed == Failed(batch, RefreshedSets(batch, outcomes))
    ensures successful == |RefreshedSets(batch, outcomes)|
    ensures affected == UsersOf(batch, RefreshedSets(batch, outcomes))
    ensures forall s :: s in failed <==> s in batch && (outcomes(s) == RateLimited || outcomes(s) == ProviderFailed)
    ensures forall u :: u in affected <==> exists s :: s in batch && outcomes(s) == Refreshed && u in batch[s]
  {
    successful, affected, failed := 0, {}, map[];
    var remaining := batch.Keys;
    ghost var refreshed := {};
    while remaining != {}
      invariant remaining <= batch.Keys
      invariant forall s :: s in refreshed <==> s in batch && s !in remaining && outcomes(s) == Refreshed
      invariant successful == |refreshed|
      invariant affected == UsersOf(batch, refreshed)
      invariant forall s :: s in failed <==> s in batch && s !in remaining && outcomes(s) != Refreshed
      invariant forall s :: s in failed ==> failed[s] == batch[s]
    {
      var s :| s in remaining;
      remaining := remaining - {s};
      if outcomes(s) == Refreshed {
        UsersOfOneMore(batch, refreshed, s);
        successful := successful + 1;
        affected := affected + Members(batch[s]);
        refreshed := refreshed + {s};
      } else {
        failed := failed[s := batch[s]];
      }
    }
    assert refreshed == RefreshedSets(batch, outcomes);
  }

  /** A delivery that takes the lock and that nothing interleaves with: what it was for goes back to
      the broker, under `retry`, exactly as far as it was not refreshed: all of it if the run raised,
      else the sets that the hourly limit or the provider refused.  Other messages stay. */
  lemma RetriedIsExact(w: World, id: int, retry: int, env: Environment, item: Item, other: int)
    requires id in w.queue && retry !in w.queue && w.tasks == map[]
    requires env.reply == Answers && LockKey(w.queue[id]) !in w.locks
    ensures
      var w' := Completed(w, id, retry, env);
      && w'.tasks == map[]
      && (Queued(w', retry, item) <==>
            && Carries(w.queue[id], item)
            && (env.raised || env.outcomes(item.setNumber) == RateLimited || env.outcomes(item.setNumber) == ProviderFailed))
      && (retry in w'.queue ==> env.raised || w'.queue[retry].batch != map[])
      && (other != retry ==> (other in w'.queue <==> other in w.queue && other != id))
      && (other in w.queue && other != id ==> w'.queue[other] == w.queue[other])
      && (env.deleted ==> w'.locks == w.locks)
  {
    CompletedRun(w, id, retry, env);
    var m := w.queue[id];
    var failed := Failed(m.batch, RefreshedSets(m.batch, env.outcomes));
    assert item.setNumber in failed <==> item.setNumber in m.batch && env.outcomes(item.setNumber) != Refreshed;
  }

  /** The users who are told about a delivery are those of the sets that were refreshed. */
  lemma AffectedIsExact(batch: Batch, outcomes: string -> Outcome, u: int)
    ensures u in UsersOf(batch, RefreshedSets(batch, outcomes)) <==> exists s :: s in batch && outcomes(s) == Refreshed && u in batch[s]
  {
  }

  lemma UsersOfOneMore(batch: Batch, sets: set<string>, s: string)
    requires s in batch
    ensures UsersOf(batch, sets + {s}) == UsersOf(batch, sets) + Members(batch[s])
  {
    var more := UsersOf(batch, sets) + Members(batch[s]);
    forall u ensures u in UsersOf(batch, sets + {s}) <==> u in more {
      if t :| t in sets + {s} && t in batch && u in batch[t] {
        assert t in sets ==> u in UsersOf(batch, sets);
      }
      if t :| t in sets && t in batch && u in batch[t] {
        assert t in sets + {s};
      }
    }
  }

  /** The refreshed sets and the retried ones are the batch, and share nothing. */
  lemma RefreshIsPartition(batch: Batch, refreshed: set<string>)
    requires refreshed <= batch.Keys
    ensures Failed(batch, refreshed).Keys !! refreshed
    ensures Failed(batch, refreshed).Keys + refreshed == batch.Keys
    ensures |Failed(batch, refreshed)| + |refreshed| == |batch|
  {
    assert Failed(batch, refreshed).Keys + refreshed == batch.Keys;
    assert |Failed(batch, refreshed).Keys + refreshed| == |Failed(batch, refreshed).Keys| + |refreshed|;
  }

  lemma CompletedUnheard(w: World, id: int, retry: int, env: Environment)
    requires id in w.queue && w.tasks == map[] && env.reply != Answers
    ensures Completed(w, id, retry, env) ==
      World(w.queue, map[], if env.reply == Down then w.locks else w.locks + {LockKey(w.queue[id])})
  {
  }

  lemma CompletedSkipped(w: World, id: int, retry: int, env: Environment)
    requires id in w.queue && w.tasks == map[] && env.reply == Answers && LockKey(w.queue[id]) in w.locks
    ensures Completed(w, id, retry, env) == World(w.queue - {id}, map[], w.locks)
  {
  }

  lemma CompletedRun(w: World, id: int, retry: int, env: Environment)
    requires id in w.queue && retry !in w.queue && w.tasks == map[]
    requires env.reply == Answers && LockKey(w.queue[id]) !in w.locks
    ensures
      var m := w.queue[id];
      var failed := if env.raised then m.batch else Failed(m.batch, RefreshedSets(m.batch, env.outcomes));
      Completed(w, id, retry, env) == World(
        if failed == map[] && !env.raised then w.queue - {id} else (w.queue - {id})[retry := Message(m.provider, failed)],
        map[], if env.deleted then w.locks else w.locks + {LockKey(m)})
  {
    var m, key := w.queue[id], LockKey(w.queue[id]);
    var taken := Deliver(w, id, Answers);
    assert taken == World(w.queue - {id}, map[id := Task(m, Working)], w.locks + {key});
    assert w.locks + {key} - {key} == w.locks;
    if env.raised {
      var raised := Next(taken, Raises(id, retry));
      assert Next(raised, Releases(id, env.deleted)).tasks == map[];
    } else {
      var committed := Next(taken, Commits(id, RefreshedSets(m.batch, env.outcomes)));
      var released := Next(committed, Releases(id, env.deleted));
      assert Next(released, Concludes(id, retry)).tasks == map[];
    }
  }

  class Worker {
    var queue: map<int, Message>
    var locks: set<Key>

    constructor ()
      ensures Idle() == World(map[], map[], {})
    {
      queue, locks := map[], {};
    }

    /** The world between deliveries. */
    function Idle(): World
      reads this
    {
      World(queue, map[], locks)
    }

    /** `_acquire_job_lock`: nothing when Redis fails, else whether the lock is ours. */
    method AcquireJobLock(m: Message, reply: Redis) returns (known: bool, acquired: bool)
      modifies this`locks
      ensures known <==> reply == Answers
      ensures acquired <==> reply == Answers && LockKey(m) !in old(locks)
      ensures locks == if reply == Down then old(locks) else old(locks) + {LockKey(m)}
    {
      known, acquired := false, false;
      if reply == Down {
        return;
      }
      var free := LockKey(m) !in locks;
      locks := locks + {LockKey(m)};
      if reply == Answers {
        known, acquired := true, free;
      }
    }

    method ReleaseJobLock(m: Message, deleted: bool)
      modifies this`locks
      ensures locks == if deleted then old(locks) - {LockKey(m)} else old(locks)
    {
      if deleted {
        locks := locks - {LockKey(m)};
      }
    }

    method RetryProviderBatch(id: int, m: Message)
      modifies this`queue
      ensures queue == old(queue)[id := m]
    {
      queue := queue[id := m];
    }

    /** `refresh_provider_batch` for a delivered message. */
    method RefreshProviderBatch(id: int, retry: int, env: Environment)
      requires id in queue && retry !in queue
      modifies this
      ensures Idle() == Completed(old(Idle()), id, retry, env)
    {
      ghost var w := Idle();
      var m := queue[id];
      queue := queue - {id};
      var known, acquired := AcquireJobLock(m, env.reply);
      if !known {
        RetryProviderBatch(id, m);
        assert queue == old(queue);
        CompletedUnheard(w, id, retry, env);
        return;
      }
      if !acquired {
        assert locks == old(locks);
        CompletedSkipped(w, id, retry, env);
        return;
      }
      CompletedRun(w, id, retry, env);
      assert old(locks) + {LockKey(m)} - {LockKey(m)} == old(locks);
      if env.raised {
        RetryProviderBatch(retry, m);
        ReleaseJobLock(m, env.deleted);
        return;
      }
      var successful, affected, failed := RefreshSets(m.batch, env.outcomes);
      ReleaseJobLock(m, env.deleted);
      if failed != map[] {
        RetryProviderBatch(retry, Message(m.provider, failed));
      }
    }
  }
}
