/** The stale-while-revalidate slot: a cached value, a revision that guards background refreshes, and
    a flag that keeps at most one of them in flight. */
module Refresh {
  import opened Wrappers

  /** The revision is a 64-bit counter that wraps around. */
  const WRAP: nat := 0x1_0000_0000_0000_0000

  datatype Timestamped<+T> = Timestamped(value: T, expiresAt: nat)
  datatype Slot<+T> = Slot(cached: Option<Timestamped<T>>, revision: nat, refreshing: bool)

  /** What a caller of `get_or_refresh` finds when it holds the lock. */
  datatype Found<+T> = Serve(value: T) | ServeAndRefresh(stale: T, revision: nat) | FetchNow

  function Replace<T>(s: Slot<T>, value: T, ttl: nat, now: nat): Slot<T> {
    s.(cached := Some(Timestamped(value, now + ttl)), revision := (s.revision + 1) % WRAP)
  }

  function Enter<T>(s: Slot<T>, now: nat): (Slot<T>, Found<T>) {
    match s.cached
    case None => (s, FetchNow)
    case Some(cached) =>
      if now < cached.expiresAt || s.refreshing then (s, Serve(cached.value))
      else (s.(refreshing := true), ServeAndRefresh(cached.value, s.revision))
  }

  function Finish<T, E>(s: Slot<T>, revision: nat, refreshed: Result<T, E>, ttl: nat, now: nat): Slot<T> {
    var s' := s.(refreshing := false);
    if refreshed.Ok? && s.revision == revision then Replace(s', refreshed.value, ttl, now) else s'
  }

  /** The shared state; each method is what happens while its lock is held once. */
  class RefreshSlot<T> {
    var cached: Option<Timestamped<T>>
    var revision: nat
    var refreshing: bool

    constructor ()
      ensures Value() == Slot(None, 0, false)
    {
      cached, revision, refreshing := None, 0, false;
    }

    ghost function Value(): Slot<T>
      reads this
    {
      Slot(cached, revision, refreshing)
    }

    method ReplaceValue(value: T, ttl: nat, now: nat)
      modifies this
      ensures Value() == Replace(old(Value()), value, ttl, now)
    {
      revision := (revision + 1) % WRAP;
      cached := Some(Timestamped(value, now + ttl));
    }

    method EnterGet(now: nat) returns (found: Found<T>)
      modifies this
      ensures (Value(), found) == Enter(old(Value()), now)
    {
      match cached
      case None => found := FetchNow;
      case Some(c) =>
        if now < c.expiresAt || refreshing { return Serve(c.value); }
        refreshing := true;
        found := ServeAndRefresh(c.value, revision);
    }

    method FinishRefresh<E>(started: nat, refreshed: Result<T, E>, ttl: nat, now: nat)
      modifies this
      ensures Value() == Finish(old(Value()), started, refreshed, ttl, now)
    {
      refreshing := false;
      if refreshed.Ok? && revision == started {
        ReplaceValue(refreshed.value, ttl, now);
      }
    }
  }

  // ---------------------------------------------------------------- runs

  type Value = int
  type Task = nat

  /** A background refresh: the revision it saw, when its fetch began, and how many values had been
      published by then. */
  datatype Refreshing = Refreshing(revision: nat, start: nat, published: nat)

  /** `fetching` holds the start of a first fetch, which keeps the lock; `published` counts the values
      published so far; `origin` is when the published value was inserted or its fetch began. */
  datatype State = State(
    slot: Slot<Value>,
    now: nat,
    fetching: Option<nat>,
    tasks: map<Task, Refreshing>,
    nextTask: Task,
    published: nat,
    origin: nat)

  const INITIAL := State(Slot(None, 0, false), 0, None, map[], 0, 0, 0)

  datatype Op =
    | Tick(d: nat)
    | Insert(value: Value, ttl: nat)
    | Get
    | FirstFetched(fetched: Result<Value, string>, ttl: nat)
    | FirstDropped
    | Refreshed(task: Task, refreshed: Result<Value, string>, ttl: nat)

  predicate Enabled(s: State, op: Op) {
    match op
    case Tick(_) => true
    case Insert(_, _) => s.fetching.None?
    case Get => s.fetching.None?
    case FirstFetched(_, _) => s.fetching.Some?
    case FirstDropped => s.fetching.Some?
    case Refreshed(task, _, _) => s.fetching.None? && task in s.tasks
  }

  function Publish(s: State, slot: Slot<Value>, origin: nat): State {
    s.(slot := slot, published := s.published + 1, origin := origin)
  }

  function Apply(s: State, op: Op): State
    requires Enabled(s, op)
  {
    match op
    case Tick(d) => s.(now := s.now + d)
    case Insert(value, ttl) => Publish(s, Replace(s.slot, value, ttl, s.now), s.now)
    case Get =>
      var (slot, found) := Enter(s.slot, s.now);
      (match found
       case Serve(_) => s
       case FetchNow => s.(fetching := Some(s.now))
       case ServeAndRefresh(_, revision) =>
         s.(slot := slot, nextTask := s.nextTask + 1,
            tasks := s.tasks[s.nextTask := Refreshing(revision, s.now, s.published)]))
    case FirstFetched(fetched, ttl) =>
      var s' := s.(fetching := None);
      if fetched.Ok? then Publish(s', Replace(s.slot, fetched.value, ttl, s.now), s.fetching.value) else s'
    case FirstDropped => s.(fetching := None)
    case Refreshed(task, refreshed, ttl) =>
      var t := s.tasks[task];
      var slot := Finish(s.slot, t.revision, refreshed, ttl, s.now);
      var s' := s.(slot := slot, tasks := s.tasks - {task});
      if refreshed.Ok? && s.slot.revision == t.revision then Publish(s', slot, t.start) else s'
  }

  predicate IsRun(s: State, ops: seq<Op>)
    decreases |ops|
  {
    ops == [] || (Enabled(s, ops[0]) && IsRun(Apply(s, ops[0]), ops[1..]))
  }

  function After(s: State, ops: seq<Op>): State
    requires IsRun(s, ops)
    decreases |ops|
  {
    if ops == [] then s else After(Apply(s, ops[0]), ops[1..])
  }

  ghost predicate Reachable(s: State) {
    exists ops :: IsRun(INITIAL, ops) && After(INITIAL, ops) == s
  }

  predicate TaskInv(s: State, task: Task) {
    task in s.tasks ==>
      var t := s.tasks[task];
      && task < s.nextTask && s.slot.refreshing && s.slot.cached.Some?
      && t.start <= s.now && t.published <= s.published
      && t.revision == t.published % WRAP
      && (t.published == s.published ==> s.origin <= t.start)
      && s.tasks == map[task := t]
  }

  ghost predicate Inv(s: State) {
    && s.slot.revision == s.published % WRAP
    && s.origin <= s.now
    && (s.slot.refreshing ==> s.tasks != map[])
    && (s.fetching.Some? ==> s.slot.cached.None? && s.fetching.value <= s.now)
    && (s.slot.cached.None? <==> s.published == 0)
    && forall task :: TaskInv(s, task)
  }

  lemma TaskKept(s: State, op: Op, task: Task)
    requires Enabled(s, op) && TaskInv(s, task)
    requires op.Refreshed? ==> TaskInv(s, op.task)
    requires s.slot.refreshing <==> s.tasks != map[]
    requires s.fetching.Some? ==> s.slot.cached.None?
    requires s.slot.revision == s.published % WRAP && s.origin <= s.now
    ensures TaskInv(Apply(s, op), task)
  {
  }

  lemma NextRevision(published: nat)
    ensures (published % WRAP + 1) % WRAP == (published + 1) % WRAP
  {
  }

  lemma StepKeeps(s: State, op: Op)
    requires Inv(s) && Enabled(s, op)
    ensures Inv(Apply(s, op))
  {
    NextRevision(s.published);
    forall task ensures TaskInv(Apply(s, op), task) {
      assert TaskInv(s, task);
      if op.Refreshed? { assert TaskInv(s, op.task); }
      SomeTask(s);
      TaskKept(s, op, task);
    }
    if op.Refreshed? { assert TaskInv(s, op.task); }
    if op.Get? && Apply(s, op).slot.refreshing && !s.slot.refreshing { assert s.nextTask in Apply(s, op).tasks; }
  }

  lemma SomeTask(s: State)
    requires Inv(s)
    ensures s.slot.refreshing <==> s.tasks != map[]
  {
    if s.tasks != map[] {
      assert s.tasks.Keys != {};
      var task :| task in s.tasks;
      assert TaskInv(s, task);
    }
  }

  lemma {:induction false} RunKeeps(s: State, ops: seq<Op>)
    requires Inv(s) && IsRun(s, ops)
    ensures Inv(After(s, ops))
    decreases |ops|
  {
    if ops != [] {
      StepKeeps(s, ops[0]);
      RunKeeps(Apply(s, ops[0]), ops[1..]);
    }
  }

  lemma ReachableInv(s: State)
    requires Reachable(s)
    ensures Inv(s)
  {
    var ops :| IsRun(INITIAL, ops) && After(INITIAL, ops) == s;
    RunKeeps(INITIAL, ops);
  }

  // ---------------------------------------------------------------- main results

  /** At most one background refresh is in flight, and exactly while the flag is set. */
  lemma SingleFlight(s: State)
    requires Reachable(s)
    ensures |s.tasks| <= 1
    ensures s.slot.refreshing <==> |s.tasks| == 1
  {
    ReachableInv(s);
    SomeTask(s);
    if s.tasks != map[] {
      assert s.tasks.Keys != {};
      var task :| task in s.tasks;
      assert TaskInv(s, task);
    }
  }

  /** An expired value is served only while a refresh is in flight or when the call itself starts one;
      a fresh one starts none. */
  lemma StaleOnlyWhileRefreshing(s: State)
    requires Reachable(s) && Enabled(s, Get) && s.slot.cached.Some?
    ensures var s' := Apply(s, Get);
            && |s'.tasks| == (if s.now >= s.slot.cached.value.expiresAt then 1 else |s.tasks|)
            && (s.tasks != map[] || s.now < s.slot.cached.value.expiresAt ==> s'.tasks == s.tasks)
            && s'.slot.cached == s.slot.cached
  {
    SingleFlight(s);
  }

  /** Whether the result of a refresh is published. */
  predicate Publishes(s: State, op: Op)
    requires op.Refreshed? && Enabled(s, op)
  {
    op.refreshed.Ok? && Apply(s, op).published == s.published + 1
  }

  /** A refresh whose fetch began before some later value was published overwrites it exactly when the
      number of values published since is a whole number of turns of the 64-bit revision. */
  lemma OverwritesIffWrapped(s: State, op: Op)
    requires Reachable(s) && op.Refreshed? && Enabled(s, op) && op.refreshed.Ok?
    ensures var since := s.published - s.tasks[op.task].published;
            since >= 0 && (Publishes(s, op) <==> since % WRAP == 0)
  {
    ReachableInv(s);
    assert TaskInv(s, op.task);
    var p, q := s.published, s.tasks[op.task].published;
    assert p % WRAP == q % WRAP <==> (p - q) % WRAP == 0;
  }

  /** The value an operation brings, if its fetch succeeded, and how long it is to be fresh. */
  function Brings(op: Op): Option<(Value, nat)> {
    match op
    case Insert(value, ttl) => Some((value, ttl))
    case FirstFetched(Ok(value), ttl) => Some((value, ttl))
    case Refreshed(_, Ok(value), ttl) => Some((value, ttl))
    case _ => None
  }

  /** A value is published by every operation that brings one, except a refresh since whose start other
      values were published, a whole number of turns of the revision aside; anything else leaves the
      cached value and its deadline as they were.  A refresh is over once it has come back, either way. */
  lemma PublishesIff(s: State, op: Op)
    requires Reachable(s) && Enabled(s, op)
    ensures Apply(s, op).published == s.published + 1 <==>
              Brings(op).Some? && (op.Refreshed? ==> (s.published - s.tasks[op.task].published) % WRAP == 0)
    ensures Apply(s, op).published != s.published + 1 ==>
              Apply(s, op).published == s.published && Apply(s, op).slot.cached == s.slot.cached
    ensures op.Refreshed? ==> Apply(s, op).tasks == map[] && !Apply(s, op).slot.refreshing
    ensures op.FirstFetched? || op.FirstDropped? ==> Apply(s, op).fetching.None?
  {
    if op.Refreshed? {
      ReachableInv(s);
      assert TaskInv(s, op.task);
      if op.refreshed.Ok? { OverwritesIffWrapped(s, op); }
    }
  }

  /** The cached value and when it stops being fresh. */
  predicate Holds(s: State, value: Value, until: nat) {
    s.slot.cached.Some? && s.slot.cached.value.value == value && s.slot.cached.value.expiresAt == until
  }

  lemma {:induction false} HeldWhileNonePublished(s: State, ops: seq<Op>, value: Value, until: nat)
    requires Reachable(s) && IsRun(s, ops) && Holds(s, value, until)
    requires After(s, ops).published == s.published
    ensures Holds(After(s, ops), value, until)
    decreases |ops|
  {
    if ops != [] {
      var t := Then(s, ops[0]);
      StepFollows(s, ops[0], 0);
      RunFollows(t, ops[1..], 0);
      PublishesIff(s, ops[0]);
      HeldWhileNonePublished(t, ops[1..], value, until);
    }
  }

  /** A published value is what every later call is served, until another one is published.  A call within
      the time to live changes nothing; the first one after it starts a refresh, with the revision of
      that value, unless one is under way. */
  lemma {:induction false} FreshUntil(s: State, op: Op, ops: seq<Op>)
    requires Reachable(s) && Enabled(s, op) && Apply(s, op).published == s.published + 1
    requires IsRun(Apply(s, op), ops)
    requires var t := After(Apply(s, op), ops); t.published == s.published + 1 && Enabled(t, Get)
    ensures Brings(op).Some?
    ensures var t, (value, ttl) := After(Apply(s, op), ops), Brings(op).value;
            && Holds(t, value, s.now + ttl)
            && (Enter(t.slot, t.now).1.Serve? || Enter(t.slot, t.now).1.ServeAndRefresh?)
            && (Enter(t.slot, t.now).1.Serve? ==> Enter(t.slot, t.now).1.value == value)
            && (Enter(t.slot, t.now).1.ServeAndRefresh? ==> Enter(t.slot, t.now).1.stale == value)
            && (t.now < s.now + ttl || t.tasks != map[] ==> Apply(t, Get) == t)
            && (t.now >= s.now + ttl && t.tasks == map[] ==>
                 Apply(t, Get).tasks == map[t.nextTask := Refreshing(t.published % WRAP, t.now, t.published)])
  {
    PublishesIff(s, op);
    var u := Then(s, op);
    var (value, ttl) := Brings(op).value;
    assert Holds(u, value, s.now + ttl);
    HeldWhileNonePublished(u, ops, value, s.now + ttl);
    ThenAll(u, ops);
    ReachableInv(After(u, ops));
    SomeTask(After(u, ops));
  }

  /** Before anything was published a call fetches, holding the lock until the fetch has come back. */
  lemma NothingPublishedFetches(s: State)
    requires Reachable(s) && Enabled(s, Get) && s.published == 0
    ensures Apply(s, Get) == s.(fetching := Some(s.now))
    ensures forall op | Enabled(Apply(s, Get), op) :: op.Tick? || op.FirstFetched? || op.FirstDropped?
  {
    ReachableInv(s);
  }

  /** The published value goes back to an older fetch only by a refresh that overwrites a newer value. */
  lemma OriginNeverGoesBack(s: State, op: Op)
    requires Reachable(s) && Enabled(s, op) && s.slot.cached.Some?
    ensures Apply(s, op).slot.cached.Some?
    ensures Apply(s, op).origin < s.origin ==>
              op.Refreshed? && Publishes(s, op) && s.published - s.tasks[op.task].published >= WRAP
  {
    ReachableInv(s);
    if op.Refreshed? {
      assert TaskInv(s, op.task);
      if op.refreshed.Ok? { OverwritesIffWrapped(s, op); }
    }
  }

  /** From one state to another: nothing is unpublished, and a refresh in flight then was so before, with
      the same record, unless it began in between. */
  predicate Follows(s: State, t: State, task: Task) {
    && s.published <= t.published && s.nextTask <= t.nextTask
    && (task in t.tasks && task < s.nextTask ==> task in s.tasks && t.tasks[task] == s.tasks[task])
  }

  lemma StepFollows(s: State, op: Op, task: Task)
    requires Enabled(s, op)
    ensures Follows(s, Apply(s, op), task)
  {
  }

  lemma {:induction false} RunFollows(s: State, ops: seq<Op>, task: Task)
    requires IsRun(s, ops)
    ensures Follows(s, After(s, ops), task)
    decreases |ops|
  {
    if ops != [] {
      StepFollows(s, ops[0], task);
      RunFollows(Apply(s, ops[0]), ops[1..], task);
    }
  }

  /** A value inserted while a refresh is in flight is not overwritten by it, whatever happens before the
      refresh ends, as long as fewer than 2^64 values have been published since the fetch began; nor is
      any value published after it. */
  lemma {:induction false} InsertSurvivesRefresh(s: State, insert: Op, ops: seq<Op>, refresh: Op)
    requires Reachable(s) && insert.Insert? && Enabled(s, insert)
    requires refresh.Refreshed? && refresh.task in s.tasks
    requires IsRun(Apply(s, insert), ops)
    requires var t := After(Apply(s, insert), ops);
             Enabled(t, refresh) && t.published - s.tasks[refresh.task].published < WRAP
    ensures var t := After(Apply(s, insert), ops);
            Apply(t, refresh).slot.cached == t.slot.cached && Apply(t, refresh).origin == t.origin
  {
    ReachableInv(s);
    assert TaskInv(s, refresh.task);
    var u := Then(s, insert);
    RunFollows(u, ops, refresh.task);
    var t := After(u, ops);
    ThenAll(u, ops);
    if refresh.refreshed.Ok? {
      OverwritesIffWrapped(t, refresh);
      assert 0 < t.published - t.tasks[refresh.task].published < WRAP;
    }
  }

  lemma Then(s: State, op: Op) returns (t: State)
    requires Reachable(s) && Enabled(s, op)
    ensures t == Apply(s, op) && Reachable(t)
  {
    t := Apply(s, op);
    assert [op][1..] == [] && IsRun(t, []) && IsRun(s, [op]) && After(s, [op]) == t;
    ThenAll(s, [op]);
  }

  lemma {:induction false} ThenAll(s: State, ops: seq<Op>)
    requires Reachable(s) && IsRun(s, ops)
    ensures Reachable(After(s, ops))
  {
    var before :| IsRun(INITIAL, before) && After(INITIAL, before) == s;
    RunsCompose(INITIAL, before, ops);
  }

  lemma {:induction false} RunsCompose(s: State, a: seq<Op>, b: seq<Op>)
    requires IsRun(s, a) && IsRun(After(s, a), b)
    ensures IsRun(s, a + b) && After(s, a + b) == After(After(s, a), b)
    decreases |a|
  {
    if a == [] {
      assert a + b == b;
    } else {
      RunsCompose(Apply(s, a[0]), a[1..], b);
      assert (a + b)[1..] == a[1..] + b && (a + b)[0] == a[0];
    }
  }

  /** Any number of inserts can fall within one refresh. */
  lemma {:induction false} InsertMany(s: State, value: Value, n: nat) returns (t: State)
    requires Reachable(s) && s.fetching.None? && n > 0
    ensures Reachable(t) && t.fetching.None? && t.tasks == s.tasks && t.now == s.now
    ensures t.published == s.published + n && t.origin == s.now && t.slot.cached == Some(Timestamped(value, s.now))
  {
    t := s;
    if n > 1 {
      t := InsertMany(s, value, n - 1);
    }
    t := Then(t, Insert(value, 0));
  }

  /** The overwrite is reached: after any positive whole number of turns of the revision, a refresh puts
      an older value in place of a newer one. */
  lemma WrapReached(turns: nat, older: Value, newer: Value) returns (s: State, op: Op)
    requires turns > 0
    ensures Reachable(s) && op.Refreshed? && op.refreshed == Ok(older) && Enabled(s, op)
    ensures s.published - s.tasks[op.task].published == turns * WRAP
    ensures s.slot.cached.Some? && s.slot.cached.value.value == newer
    ensures Publishes(s, op) && Apply(s, op).slot.cached.Some? && Apply(s, op).slot.cached.value.value == older
    ensures Apply(s, op).origin < s.origin
  {
    assert IsRun(INITIAL, []) && After(INITIAL, []) == INITIAL;
    s := Then(INITIAL, Insert(newer, 0));
    s := Then(s, Get);
    s := Then(s, Tick(1));
    assert s.tasks == map[0 := Refreshing(1, 0, 1)];
    s := InsertMany(s, newer, turns * WRAP);
    op := Refreshed(0, Ok(older), 0);
    assert turns * WRAP % WRAP == 0;
    OverwritesIffWrapped(s, op);
  }
}
