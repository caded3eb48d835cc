/** The Go service: a loop that reads requests, one worker per invocation, and a table of cancel functions
    keyed by session and event. Worker and loop steps interleave. */
module WebFetchService {
  import opened Wrappers
  import opened Cancellation
  import ExtensionService

  datatype Key = Key(session: SessionId, event: nat)

  /** The table the mutex guards, and which contexts have been cancelled. The cancel function of worker
      `w` cancels context `w`. */
  datatype Table = Table(inflight: map<Key, nat>, contexts: seq<bool>)

  /** A cancel selects one session's keys; the shutdown selects all. */
  predicate Matches(key: Key, session: Option<SessionId>) {
    session.None? || key.session == session.value
  }

  function Unmatched(inflight: map<Key, nat>, session: Option<SessionId>): map<Key, nat> {
    map key | key in inflight && !Matches(key, session) :: inflight[key]
  }

  function Matched(inflight: map<Key, nat>, session: Option<SessionId>): set<nat> {
    set key | key in inflight && Matches(key, session) :: inflight[key]
  }

  /** A table while its keys are gone through, with `keys` still ahead: what is left, and what was taken. */
  function Kept(table: map<Key, nat>, keys: set<Key>, session: Option<SessionId>): map<Key, nat> {
    map key | key in table && (key in keys || !Matches(key, session)) :: table[key]
  }

  function Taken(table: map<Key, nat>, keys: set<Key>, session: Option<SessionId>): set<nat> {
    set key | key in table && key !in keys && Matches(key, session) :: table[key]
  }

  ghost predicate Lists(cancels: seq<nat>, targets: set<nat>) {
    forall w :: w in cancels <==> w in targets
  }

  lemma ListsMore(cancels: seq<nat>, targets: set<nat>, w: nat)
    requires Lists(cancels, targets)
    ensures Lists(cancels + [w], targets + {w})
  {
  }

  lemma TakeOne(table: map<Key, nat>, keys: set<Key>, key: Key, session: Option<SessionId>)
    requires key in keys && keys <= table.Keys
    ensures Kept(table, keys - {key}, session)
         == if Matches(key, session) then Kept(table, keys, session) - {key} else Kept(table, keys, session)
    ensures Taken(table, keys - {key}, session)
         == Taken(table, keys, session) + if Matches(key, session) then {table[key]} else {}
  {
    var before, after := Taken(table, keys, session), Taken(table, keys - {key}, session);
    forall w ensures w in after <==> w in before || (Matches(key, session) && w == table[key]) {
      if w in after {
        var k :| k in table && k !in keys - {key} && Matches(k, session) && table[k] == w;
        assert k != key ==> k !in keys;
      }
      if w in before {
        var k :| k in table && k !in keys && Matches(k, session) && table[k] == w;
        assert k !in keys - {key};
      }
      if Matches(key, session) && w == table[key] {
        assert key !in keys - {key};
      }
    }
  }

  function Fired(contexts: seq<bool>, w: nat): seq<bool> {
    if w < |contexts| then contexts[w := true] else contexts
  }

  class Service {
    var inflight: map<Key, nat>
    var contexts: seq<bool>

    ghost function View(): Table
      reads this
    {
      Table(inflight, contexts)
    }

    constructor ()
      ensures View() == Table(map[], [])
    {
      inflight := map[];
      contexts := [];
    }

    method Register(key: Key) returns (w: nat)
      modifies this
      ensures w == |old(contexts)|
      ensures View() == Table(old(inflight)[key := w], old(contexts) + [false])
    {
      w := |contexts|;
      contexts := contexts + [false];
      inflight := inflight[key := w];
    }

    method Forget(key: Key)
      modifies this`inflight
      ensures inflight == old(inflight) - {key}
    {
      inflight := inflight - {key};
    }

    /** The part of a cancel under the lock: the matching cancel functions, taken out of the table. */
    method Collect(session: Option<SessionId>) returns (cancels: seq<nat>)
      modifies this`inflight
      ensures inflight == Unmatched(old(inflight), session)
      ensures Lists(cancels, Matched(old(inflight), session))
    {
      cancels := [];
      ghost var table := inflight;
      var keys := inflight.Keys;
      assert Kept(table, keys, session) == table && Taken(table, keys, session) == {};
      while keys != {}
        invariant keys <= table.Keys
        invariant inflight == Kept(table, keys, session)
        invariant Lists(cancels, Taken(table, keys, session))
        decreases |keys|
      {
        var key :| key in keys;
        TakeOne(table, keys, key, session);
        assert key in inflight && inflight[key] == table[key];
        if Matches(key, session) {
          ListsMore(cancels, Taken(table, keys, session), inflight[key]);
          cancels := cancels + [inflight[key]];
          inflight := inflight - {key};
        }
        keys := keys - {key};
      }
      assert Kept(table, {}, session) == Unmatched(table, session);
      assert Taken(table, {}, session) == Matched(table, session);
    }

    method Fire(w: nat)
      modifies this`contexts
      ensures contexts == Fired(old(contexts), w)
    {
      if w < |contexts| {
        contexts := contexts[w := true];
      }
    }
  }

  // ---------------------------------------------------------------- the running service

  datatype Phase = Running | Replied | Forgotten | Exited
  datatype Worker = Worker(key: Key, at: nat, phase: Phase)

  /** What the loop is doing: reading, firing collected cancels before it replies or waits, waiting for the
      workers, or stopped. */
  datatype Loop = Reading | Firing(targets: set<nat>, reply: Option<nat>) | Waiting | Stopped

  datatype State = State(table: Table, workers: seq<Worker>, loop: Loop, read: seq<Request>, replies: seq<nat>)

  datatype Event =
    | Read(request: Request)
    | Eof
    | Fire(w: nat)
    | Finish
    | Reply(w: nat)
    | Forget(w: nat)
    | Exit(w: nat)
    | Join

  function AfterRead(s: State, request: Request): State {
    var read := s.read + [request];
    match request
    case Invoke(session, event) =>
      var key := Key(session, event);
      s.(table := Table(s.table.inflight[key := |s.workers|], s.table.contexts + [false]),
         workers := s.workers + [Worker(key, |s.read|, Running)], read := read)
    case Cancel(session, event) =>
      s.(table := s.table.(inflight := Unmatched(s.table.inflight, Some(session))),
         loop := Firing(Matched(s.table.inflight, Some(session)), Some(event)), read := read)
    case Other(event) => s.(read := read, replies := s.replies + [event])
  }

  function InPhase(s: State, w: nat, phase: Phase): State
    requires w < |s.workers|
  {
    s.(workers := s.workers[w := s.workers[w].(phase := phase)])
  }

  predicate At(s: State, w: nat, phase: Phase) {
    w < |s.workers| && s.workers[w].phase == phase
  }

  /** One step; what is not enabled changes nothing. A worker answers with its result, an error or the
      panic it recovered from, then leaves the table, then releases its own context. */
  function Step(s: State, e: Event): State {
    match e
    case Read(request) => if s.loop == Reading then AfterRead(s, request) else s
    case Eof =>
      if s.loop == Reading then
        s.(table := s.table.(inflight := Unmatched(s.table.inflight, None)),
           loop := Firing(Matched(s.table.inflight, None), None))
      else s
    case Fire(w) =>
      if s.loop.Firing? && w in s.loop.targets then
        s.(table := s.table.(contexts := Fired(s.table.contexts, w)), loop := s.loop.(targets := s.loop.targets - {w}))
      else s
    case Finish =>
      if s.loop.Firing? && s.loop.targets == {} then
        (match s.loop.reply
         case Some(event) => s.(replies := s.replies + [event], loop := Reading)
         case None => s.(loop := Waiting))
      else s
    case Reply(w) =>
      if At(s, w, Running) then InPhase(s, w, Replied).(replies := s.replies + [s.workers[w].key.event]) else s
    case Forget(w) =>
      if At(s, w, Replied) then
        InPhase(s, w, Forgotten).(table := s.table.(inflight := s.table.inflight - {s.workers[w].key}))
      else s
    case Exit(w) =>
      if At(s, w, Forgotten) then InPhase(s, w, Exited).(table := s.table.(contexts := Fired(s.table.contexts, w))) else s
    case Join =>
      if s.loop == Waiting && forall w | 0 <= w < |s.workers| :: s.workers[w].phase == Exited then s.(loop := Stopped) else s
  }

  const START := State(Table(map[], []), [], Reading, [], [])

  /** The state after the first `n` events. */
  function After(s: State, events: seq<Event>, n: nat): State
    requires n <= |events|
  {
    if n == 0 then s else Step(After(s, events, n - 1), events[n - 1])
  }

  // ---------------------------------------------------------------- every request answered once

  /** How often the event has been answered, is still owed by a worker, and was asked. */
  function Answered(replies: seq<nat>, event: nat): nat {
    if replies == [] then 0
    else Answered(replies[..|replies| - 1], event) + if replies[|replies| - 1] == event then 1 else 0
  }

  predicate Owes(worker: Worker, event: nat) {
    worker.phase == Running && worker.key.event == event
  }

  function Owed(workers: seq<Worker>, event: nat): nat {
    if workers == [] then 0
    else Owed(workers[..|workers| - 1], event) + if Owes(workers[|workers| - 1], event) then 1 else 0
  }

  function Asked(read: seq<Request>, event: nat): nat {
    if read == [] then 0
    else Asked(read[..|read| - 1], event) + if read[|read| - 1].event == event then 1 else 0
  }

  /** The cancel the loop is working on still owes its reply. */
  function LoopOwes(loop: Loop, event: nat): nat {
    if loop.Firing? && loop.reply == Some(event) then 1 else 0
  }

  lemma {:induction false} AnsweredMore(replies: seq<nat>, reply: nat, event: nat)
    ensures Answered(replies + [reply], event) == Answered(replies, event) + if reply == event then 1 else 0
  {
    assert (replies + [reply])[..|replies|] == replies;
  }

  lemma {:induction false} OwedMore(workers: seq<Worker>, worker: Worker, event: nat)
    ensures Owed(workers + [worker], event) == Owed(workers, event) + if Owes(worker, event) then 1 else 0
  {
    assert (workers + [worker])[..|workers|] == workers;
  }

  lemma {:induction false} AskedMore(read: seq<Request>, request: Request, event: nat)
    ensures Asked(read + [request], event) == Asked(read, event) + if request.event == event then 1 else 0
  {
    assert (read + [request])[..|read|] == read;
  }

  lemma {:induction false} OwedUpdated(workers: seq<Worker>, w: nat, worker: Worker, event: nat)
    requires w < |workers|
    ensures Owed(workers[w := worker], event) + (if Owes(workers[w], event) then 1 else 0)
         == Owed(workers, event) + (if Owes(worker, event) then 1 else 0)
  {
    var after := workers[w := worker];
    var front := workers[..|workers| - 1];
    if w == |workers| - 1 {
      assert after[..|after| - 1] == front;
    } else {
      OwedUpdated(front, w, worker, event);
      assert after[..|after| - 1] == front[w := worker];
    }
  }

  predicate Balanced(s: State, event: nat) {
    Answered(s.replies, event) + Owed(s.workers, event) + LoopOwes(s.loop, event) == Asked(s.read, event)
  }

  lemma ReadBalances(s: State, request: Request, event: nat)
    requires Balanced(s, event) && s.loop == Reading
    ensures Balanced(AfterRead(s, request), event)
  {
    AskedMore(s.read, request, event);
    match request {
      case Invoke(session, e) => OwedMore(s.workers, Worker(Key(session, e), |s.read|, Running), event);
      case Cancel(_, _) =>
      case Other(e) => AnsweredMore(s.replies, e, event);
    }
  }

  lemma WorkerBalances(s: State, t: State, w: nat, phase: Phase, event: nat)
    requires Balanced(s, event) && w < |s.workers| && phase != Running
    requires t.workers == s.workers[w := s.workers[w].(phase := phase)] && t.loop == s.loop && t.read == s.read
    requires t.replies == if s.workers[w].phase == Running then s.replies + [s.workers[w].key.event] else s.replies
    ensures Balanced(t, event)
  {
    OwedUpdated(s.workers, w, s.workers[w].(phase := phase), event);
    AnsweredMore(s.replies, s.workers[w].key.event, event);
  }

  lemma FinishBalances(s: State, event: nat)
    requires Balanced(s, event)
    ensures Balanced(Step(s, Finish), event)
  {
    if s.loop.Firing? && s.loop.reply.Some? {
      AnsweredMore(s.replies, s.loop.reply.value, event);
    }
  }

  lemma StepBalances(s: State, e: Event, event: nat)
    requires Balanced(s, event)
    ensures Balanced(Step(s, e), event)
  {
    match e {
      case Read(request) => if s.loop == Reading { ReadBalances(s, request, event); }
      case Finish => FinishBalances(s, event);
      case Reply(w) => if At(s, w, Running) { WorkerBalances(s, Step(s, e), w, Replied, event); }
      case Forget(w) => if At(s, w, Replied) { WorkerBalances(s, Step(s, e), w, Forgotten, event); }
      case Exit(w) => if At(s, w, Forgotten) { WorkerBalances(s, Step(s, e), w, Exited, event); }
      case _ =>
    }
  }

  lemma {:induction false} NoneOwed(workers: seq<Worker>, event: nat)
    requires forall w | 0 <= w < |workers| :: workers[w].phase == Exited
    ensures Owed(workers, event) == 0
  {
    if workers != [] {
      NoneOwed(workers[..|workers| - 1], event);
    }
  }

  lemma {:induction false} RunBalances(events: seq<Event>, n: nat, event: nat)
    requires n <= |events|
    ensures Balanced(After(START, events, n), event)
  {
    if n > 0 {
      RunBalances(events, n - 1, event);
      StepBalances(After(START, events, n - 1), events[n - 1], event);
    }
  }

  /** Once the service has stopped, every event has been answered exactly as often as it was asked. */
  lemma {:induction false} AnsweredOnce(events: seq<Event>, event: nat)
    requires After(START, events, |events|).loop == Stopped
    ensures var s := After(START, events, |events|); Answered(s.replies, event) == Asked(s.read, event)
  {
    RunBalances(events, |events|, event);
    StoppedExited(events, |events|);
    NoneOwed(After(START, events, |events|).workers, event);
  }

  lemma {:induction false} StoppedExited(events: seq<Event>, n: nat)
    requires n <= |events| && After(START, events, n).loop == Stopped
    ensures forall w | 0 <= w < |After(START, events, n).workers| :: After(START, events, n).workers[w].phase == Exited
  {
    if n > 0 && After(START, events, n - 1).loop == Stopped {
      StoppedExited(events, n - 1);
      StoppedStays(After(START, events, n - 1), events[n - 1]);
    }
  }

  lemma StoppedStays(s: State, e: Event)
    requires s.loop == Stopped && forall w | 0 <= w < |s.workers| :: s.workers[w].phase == Exited
    ensures Step(s, e) == s
  {
  }

  // ---------------------------------------------------------------- who is signalled

  // All that follows is about the workers of one key: what is read for other keys cannot affect them.

  /** A worker that has not left the table. */
  predicate Live(worker: Worker) {
    worker.phase == Running || worker.phase == Replied
  }

  predicate Holds(worker: Worker, k: Key) {
    Live(worker) && worker.key == k
  }

  predicate KeyFree(s: State, k: Key) {
    forall w | 0 <= w < |s.workers| :: !Holds(s.workers[w], k)
  }

  function InvokeOf(k: Key): Request {
    Invoke(k.session, k.event)
  }

  /** An invocation with the key is read only while no live worker holds it; once its worker has left the
      table the key may come again. */
  predicate FreshRead(s: State, e: Event, k: Key) {
    e == Read(InvokeOf(k)) && s.loop == Reading ==> KeyFree(s, k)
  }

  predicate FreshRun(s: State, events: seq<Event>, n: nat, k: Key)
    requires n <= |events|
  {
    n > 0 ==> FreshRun(s, events, n - 1, k) && FreshRead(After(s, events, n - 1), events[n - 1], k)
  }

  predicate ShuttingDown(loop: Loop) {
    loop == Waiting || loop == Stopped || (loop.Firing? && loop.reply.None?)
  }

  function Targets(loop: Loop): set<nat> {
    if loop.Firing? then loop.targets else {}
  }

  /** A cancel of the worker's session was read after it, or the service is shutting down. */
  predicate Wanted(s: State, w: nat)
    requires w < |s.workers|
  {
    CancelRequested(s.read, s.workers[w].at, s.workers[w].key.session) || ShuttingDown(s.loop)
  }

  predicate InTable(s: State, w: nat)
    requires w < |s.workers|
  {
    s.workers[w].key in s.table.inflight && s.table.inflight[s.workers[w].key] == w
  }

  /** A worker that has not left the table is signalled, or about to be, just when it is wanted; otherwise
      the table still has its cancel function. */
  predicate WorkerInv(s: State, w: nat)
    requires w < |s.workers| == |s.table.contexts|
  {
    var worker := s.workers[w];
    && worker.at < |s.read| && s.read[worker.at] == InvokeOf(worker.key)
    && (Live(worker) ==>
          if s.table.contexts[w] || w in Targets(s.loop) then Wanted(s, w) else InTable(s, w) && !Wanted(s, w))
  }

  predicate EntryInv(s: State, key: Key)
    requires key in s.table.inflight
  {
    s.table.inflight[key] < |s.workers| && s.workers[s.table.inflight[key]].key == key
  }

  predicate OneHolder(workers: seq<Worker>, k: Key) {
    forall v, w | 0 <= v < w < |workers| :: !(Holds(workers[v], k) && Holds(workers[w], k))
  }

  ghost predicate Inv(s: State, k: Key) {
    && |s.workers| == |s.table.contexts|
    && OneHolder(s.workers, k)
    && (forall w | 0 <= w < |s.workers| && s.workers[w].key == k :: WorkerInv(s, w))
    && (forall key | key in s.table.inflight :: EntryInv(s, key))
  }

  lemma InvokeKeeps(s: State, session: SessionId, event: nat, k: Key)
    requires Inv(s, k) && s.loop == Reading && (Key(session, event) == k ==> KeyFree(s, k))
    ensures Inv(AfterRead(s, Invoke(session, event)), k)
  {
    var request := Invoke(session, event);
    var after := AfterRead(s, request);
    forall w | 0 <= w < |s.workers| && s.workers[w].key == k ensures WorkerInv(after, w) {
      assert WorkerInv(s, w);
      assert Key(session, event) == k ==> !Holds(s.workers[w], k);
      RequestedAfter(s.read, request, s.workers[w].at, s.workers[w].key.session);
    }
    NothingAfterLast(s.read, request, session);
    assert WorkerInv(after, |s.workers|);
    forall key | key in after.table.inflight ensures EntryInv(after, key) {
      assert key in s.table.inflight ==> EntryInv(s, key);
    }
  }

  /** Taking a session's cancel functions out of the table moves its live workers, and no others, to the
      targets. */
  lemma CollectKeeps(s: State, t: State, session: Option<SessionId>, w: nat)
    requires w < |s.workers|
    requires Inv(s, s.workers[w].key) && s.loop == Reading
    requires t.workers == s.workers && |s.read| <= |t.read| && t.read[..|s.read|] == s.read
    requires t.table == s.table.(inflight := Unmatched(s.table.inflight, session))
    requires t.loop.Firing? && t.loop.targets == Matched(s.table.inflight, session)
    requires Wanted(t, w) <==> Wanted(s, w) || Matches(s.workers[w].key, session)
    ensures WorkerInv(t, w)
  {
    var worker := s.workers[w];
    assert WorkerInv(s, w);
    assert t.read[worker.at] == s.read[worker.at];
    if w in t.loop.targets {
      var key :| key in s.table.inflight && Matches(key, session) && s.table.inflight[key] == w;
      assert EntryInv(s, key);
    }
  }

  lemma CancelKeeps(s: State, session: SessionId, event: nat, k: Key)
    requires Inv(s, k) && s.loop == Reading
    ensures Inv(AfterRead(s, Cancel(session, event)), k)
  {
    var request := Cancel(session, event);
    var after := AfterRead(s, request);
    forall w | 0 <= w < |after.workers| && after.workers[w].key == k ensures WorkerInv(after, w) {
      assert WorkerInv(s, w);
      RequestedAfter(s.read, request, s.workers[w].at, k.session);
      CollectKeeps(s, after, Some(session), w);
    }
    forall key | key in after.table.inflight ensures EntryInv(after, key) {
      assert EntryInv(s, key);
    }
  }

  lemma EofKeeps(s: State, k: Key)
    requires Inv(s, k) && s.loop == Reading
    ensures Inv(Step(s, Eof), k)
  {
    var after := Step(s, Eof);
    forall w | 0 <= w < |after.workers| && after.workers[w].key == k ensures WorkerInv(after, w) {
      assert WorkerInv(s, w);
      CollectKeeps(s, after, None, w);
    }
    assert after.table.inflight == map[];
  }

  lemma OtherKeeps(s: State, event: nat, k: Key)
    requires Inv(s, k) && s.loop == Reading
    ensures Inv(AfterRead(s, Other(event)), k)
  {
    var after := AfterRead(s, Other(event));
    forall w | 0 <= w < |after.workers| && after.workers[w].key == k ensures WorkerInv(after, w) {
      assert WorkerInv(s, w);
      RequestedAfter(s.read, Other(event), s.workers[w].at, k.session);
    }
    forall key | key in after.table.inflight ensures EntryInv(after, key) {
      assert EntryInv(s, key);
    }
  }

  lemma LoopKeeps(s: State, e: Event, k: Key)
    requires Inv(s, k) && (e.Fire? || e.Finish? || e.Join?)
    ensures Inv(Step(s, e), k)
  {
    var after := Step(s, e);
    forall w | 0 <= w < |after.workers| && after.workers[w].key == k ensures WorkerInv(after, w) {
      assert WorkerInv(s, w);
    }
    forall key | key in after.table.inflight ensures EntryInv(after, key) {
      assert EntryInv(s, key);
    }
  }

  lemma WorkerKeeps(s: State, e: Event, k: Key)
    requires Inv(s, k) && (e.Reply? || e.Forget? || e.Exit?)
    ensures Inv(Step(s, e), k)
  {
    var after := Step(s, e);
    forall w | 0 <= w < |after.workers| && after.workers[w].key == k ensures WorkerInv(after, w) {
      assert WorkerInv(s, w);
      assert w != e.w && e.w < |s.workers| ==> !(Holds(s.workers[w], k) && Holds(s.workers[e.w], k));
    }
    forall v, w | 0 <= v < w < |after.workers| ensures !(Holds(after.workers[v], k) && Holds(after.workers[w], k)) {
      assert !(Holds(s.workers[v], k) && Holds(s.workers[w], k));
    }
    forall key | key in after.table.inflight ensures EntryInv(after, key) {
      assert EntryInv(s, key);
    }
  }

  /** Every step keeps the workers of a key where they belong, if it reads no invocation with that key
      while a live worker holds it; whatever it does for other keys. */
  lemma StepKeeps(s: State, e: Event, k: Key)
    requires Inv(s, k) && FreshRead(s, e, k)
    ensures Inv(Step(s, e), k)
  {
    match e {
      case Read(request) =>
        if s.loop == Reading {
          match request {
            case Invoke(session, event) => InvokeKeeps(s, session, event, k);
            case Cancel(session, event) => CancelKeeps(s, session, event, k);
            case Other(event) => OtherKeeps(s, event, k);
          }
        }
      case Eof => if s.loop == Reading { EofKeeps(s, k); }
      case Fire(_) => LoopKeeps(s, e, k);
      case Finish => LoopKeeps(s, e, k);
      case Join => LoopKeeps(s, e, k);
      case _ => WorkerKeeps(s, e, k);
    }
  }

  lemma {:induction false} RunKeeps(s: State, events: seq<Event>, n: nat, k: Key)
    requires Inv(s, k) && n <= |events| && FreshRun(s, events, n, k)
    ensures Inv(After(s, events, n), k)
  {
    if n > 0 {
      RunKeeps(s, events, n - 1, k);
      StepKeeps(After(s, events, n - 1), events[n - 1], k);
    }
  }

  /** Between requests, a running worker whose key was never repeated while held is signalled just when a
      cancel of its session was read after it. */
  lemma {:induction false} SignalsExactly(events: seq<Event>, w: nat)
    requires var s := After(START, events, |events|);
             && s.loop == Reading && w < |s.workers| && s.workers[w].phase == Running
             && FreshRun(START, events, |events|, s.workers[w].key)
    ensures var s := After(START, events, |events|);
            && |s.table.contexts| == |s.workers|
            && (s.table.contexts[w] <==> CancelRequested(s.read, s.workers[w].at, s.workers[w].key.session))
  {
    var s := After(START, events, |events|);
    RunKeeps(START, events, |events|, s.workers[w].key);
    assert WorkerInv(s, w);
  }

  /** The two services agree: had the Rust service read the same requests, its invocation read where the
      worker was read would be signalled just when the worker is. */
  lemma {:induction false} AgreesWithTokens(events: seq<Event>, w: nat)
    requires var s := After(START, events, |events|);
             && s.loop == Reading && w < |s.workers| && s.workers[w].phase == Running
             && FreshRun(START, events, |events|, s.workers[w].key)
    ensures var s := After(START, events, |events|);
            var tokens := ExtensionService.Served(s.read);
            && |s.table.contexts| == |s.workers|
            && exists i | 0 <= i < |tokens.invocations| ::
                 && tokens.invocations[i].at == s.workers[w].at
                 && (s.table.contexts[w] <==> ExtensionService.Signalled(tokens, i))
  {
    var s := After(START, events, |events|);
    SignalsExactly(events, w);
    assert WorkerInv(s, w) by { RunKeeps(START, events, |events|, s.workers[w].key); }
    ExtensionService.SignalsExactly(s.read, s.workers[w].at);
  }

  /** In every state, such a worker is signalled or collected just when it is wanted, so no other session
      touches it. When the reply to a cancel of its session goes out, and when the service starts to wait,
      it has been signalled. */
  lemma {:induction false} NobodyElse(events: seq<Event>, w: nat)
    requires var s := After(START, events, |events|);
             && w < |s.workers| && s.workers[w].phase == Running
             && FreshRun(START, events, |events|, s.workers[w].key)
    ensures var s := After(START, events, |events|);
            && |s.table.contexts| == |s.workers|
            && (s.table.contexts[w] || w in Targets(s.loop) <==> Wanted(s, w))
            && (Replying(s, s.workers[w].key.session) || s.loop == Waiting ==> s.table.contexts[w])
  {
    var s := After(START, events, |events|);
    RunKeeps(START, events, |events|, s.workers[w].key);
    assert WorkerInv(s, w);
    ReachesWanted(s, w);
  }

  lemma ReachesWanted(s: State, w: nat)
    requires w < |s.workers| == |s.table.contexts| && WorkerInv(s, w) && s.workers[w].phase == Running
    ensures s.table.contexts[w] || w in Targets(s.loop) <==> Wanted(s, w)
    ensures Replying(s, s.workers[w].key.session) || s.loop == Waiting ==> s.table.contexts[w]
  {
    if Replying(s, s.workers[w].key.session) {
      assert s.workers[w].at < |s.read| - 1;
      LastRequested(s.read, s.workers[w].at, s.workers[w].key.session);
    }
  }

  lemma LastRequested(read: seq<Request>, at: nat, session: SessionId)
    requires at < |read| - 1 && IsCancelOf(read[|read| - 1], session)
    ensures CancelRequested(read, at, session)
  {
  }

  /** The loop has fired all it collected for a cancel of the session, and replies next. */
  predicate Replying(s: State, session: SessionId) {
    && s.loop.Firing? && s.loop.targets == {} && s.loop.reply.Some?
    && s.read != [] && IsCancelOf(s.read[|s.read| - 1], session)
  }

  /** Whatever the keys, the table is empty once reading has ended. */
  lemma {:induction false} NothingLeft(events: seq<Event>, n: nat)
    requires n <= |events| && ShuttingDown(After(START, events, n).loop)
    ensures After(START, events, n).table.inflight == map[]
  {
    if n > 0 {
      if ShuttingDown(After(START, events, n - 1).loop) {
        NothingLeft(events, n - 1);
      }
    }
  }

  /** Whatever the keys, a worker that has left has released its context, so a stopped service holds none. */
  lemma {:induction false} ContextsReleased(events: seq<Event>, n: nat, w: nat)
    requires n <= |events|
    ensures var s := After(START, events, n);
            && |s.table.contexts| == |s.workers|
            && (At(s, w, Exited) ==> s.table.contexts[w])
            && (s.loop == Stopped && w < |s.workers| ==> s.table.contexts[w])
  {
    if n > 0 {
      ContextsReleased(events, n - 1, w);
      StepReleases(After(START, events, n - 1), events[n - 1], w);
    }
  }

  predicate Released(s: State, w: nat) {
    && |s.table.contexts| == |s.workers|
    && (At(s, w, Exited) ==> s.table.contexts[w])
    && (s.loop == Stopped && w < |s.workers| ==> s.table.contexts[w])
  }

  lemma StepReleases(s: State, e: Event, w: nat)
    requires Released(s, w)
    ensures Released(Step(s, e), w)
  {
  }

  // ---------------------------------------------------------------- when a key is repeated

  /** A running worker is signalled, or about to be, just when it is wanted. */
  predicate Reached(s: State, w: nat) {
    && w < |s.workers| == |s.table.contexts|
    && (s.workers[w].phase == Running ==> (s.table.contexts[w] || w in Targets(s.loop) <==> Wanted(s, w)))
  }

  /** However the service goes on from `s`, as long as the key is not read again while a worker holds it. */
  ghost predicate AlwaysReached(s: State, w: nat, k: Key) {
    forall more | FreshRun(s, more, |more|, k) :: Reached(After(s, more, |more|), w)
  }

  /** A new invocation stays within reach of every later cancel, and is touched by nothing else, just when
      no live worker holds its key as it is read. */
  lemma KeyFreeIff(s: State, k: Key)
    requires Inv(s, k) && s.loop == Reading
    ensures KeyFree(s, k) <==> AlwaysReached(AfterRead(s, InvokeOf(k)), |s.workers|, k)
  {
    var t, u := AfterRead(s, InvokeOf(k)), |s.workers|;
    if KeyFree(s, k) {
      InvokeKeeps(s, k.session, k.event, k);
      forall more | FreshRun(t, more, |more|, k) ensures Reached(After(t, more, |more|), u) {
        RunKeeps(t, more, |more|, k);
        WorkerStays(t, more, |more|, u);
        assert WorkerInv(After(t, more, |more|), u);
      }
    } else {
      var v :| 0 <= v < |s.workers| && Holds(s.workers[v], k);
      var more := HeldKeyMisses(s, v);
      assert !Reached(After(t, more, |more|), u);
    }
  }

  /** Reading a key again while a live worker holds it also puts that worker out of reach, unless it has
      been signalled already or has answered. */
  lemma HolderReachedIff(s: State, v: nat)
    requires v < |s.workers| && Live(s.workers[v])
    requires Inv(s, s.workers[v].key) && s.loop == Reading
    ensures var k := s.workers[v].key;
            AlwaysReached(AfterRead(s, InvokeOf(k)), v, k) <==> s.workers[v].phase == Replied || s.table.contexts[v]
  {
    var k := s.workers[v].key;
    var t := AfterRead(s, InvokeOf(k));
    assert WorkerInv(s, v);
    if s.workers[v].phase == Replied || s.table.contexts[v] {
      RequestedAfter(s.read, InvokeOf(k), s.workers[v].at, k.session);
      forall more | FreshRun(t, more, |more|, k) ensures Reached(After(t, more, |more|), v) {
        SettledStays(t, more, |more|, v);
      }
    } else {
      var more := RepeatMisses(s, v);
      assert FreshRun(t, more, 0, k);
      assert !Reached(After(t, more, |more|), v);
    }
  }

  lemma {:induction false} WorkerStays(s: State, events: seq<Event>, n: nat, w: nat)
    requires n <= |events| && w < |s.workers|
    ensures w < |After(s, events, n).workers| && After(s, events, n).workers[w].key == s.workers[w].key
  {
    if n > 0 {
      WorkerStays(s, events, n - 1, w);
      WorkerKept(After(s, events, n - 1), events[n - 1], w);
    }
  }

  lemma WorkerKept(s: State, e: Event, w: nat)
    requires w < |s.workers|
    ensures w < |Step(s, e).workers| && Step(s, e).workers[w].key == s.workers[w].key
    ensures Step(s, e).workers[w].at == s.workers[w].at
    ensures s.workers[w].phase != Running ==> Step(s, e).workers[w].phase != Running
  {
  }

  /** The worker no longer runs, or a cancel asked for it and it was signalled. */
  predicate Settled(s: State, w: nat) {
    && w < |s.workers| == |s.table.contexts|
    && (s.workers[w].phase != Running
        || (s.table.contexts[w] && s.workers[w].at < |s.read|
            && CancelRequested(s.read, s.workers[w].at, s.workers[w].key.session)))
  }

  lemma SettledStep(s: State, e: Event, w: nat)
    requires Settled(s, w)
    ensures Settled(Step(s, e), w)
  {
    WorkerKept(s, e, w);
    if e.Read? && s.workers[w].at < |s.read| {
      RequestedAfter(s.read, e.request, s.workers[w].at, s.workers[w].key.session);
    }
  }

  lemma {:induction false} SettledStays(s: State, events: seq<Event>, n: nat, w: nat)
    requires n <= |events| && Settled(s, w)
    ensures Settled(After(s, events, n), w)
  {
    if n > 0 {
      SettledStays(s, events, n - 1, w);
      SettledStep(After(s, events, n - 1), events[n - 1], w);
    }
  }

  /** A cancel of its session has been read after it, but the running worker is neither signalled nor about
      to be. */
  predicate Missed(s: State, w: nat) {
    && w < |s.workers| == |s.table.contexts| && s.workers[w].phase == Running
    && CancelRequested(s.read, s.workers[w].at, s.workers[w].key.session)
    && !s.table.contexts[w] && w !in Targets(s.loop)
  }

  /** While a live worker holds the key: it answers, leaves the table with the new worker's cancel
      function, and a cancel read then misses the new worker. */
  lemma HeldKeyMisses(s: State, v: nat) returns (more: seq<Event>)
    requires v < |s.workers| && Live(s.workers[v])
    requires Inv(s, s.workers[v].key) && s.loop == Reading
    ensures var k := s.workers[v].key;
            var t := AfterRead(s, InvokeOf(k));
            FreshRun(t, more, |more|, k) && Missed(After(t, more, |more|), |s.workers|)
  {
    var k, u := s.workers[v].key, |s.workers|;
    var t := AfterRead(s, InvokeOf(k));
    more := [Reply(v), Forget(v), Read(Cancel(k.session, 0))];
    var t1, t2, end := After(t, more, 1), After(t, more, 2), After(t, more, 3);
    assert After(t, more, 0) == t;
    assert t1 == Step(t, Reply(v)) && t2 == Step(t1, Forget(v));
    assert end == Step(t2, Read(Cancel(k.session, 0)));
    assert FreshRun(t, more, 1, k) && FreshRun(t, more, 2, k);
    assert t1.workers[v].phase == Replied && t1.table == t.table;
    assert t2.table.inflight == t.table.inflight - {k};
    NotInTable(s, t2, k);
    assert IsCancelOf(end.read[|s.read| + 1], k.session);
  }

  lemma NotInTable(s: State, t: State, key: Key)
    requires forall k | k in s.table.inflight :: EntryInv(s, k)
    requires t.table.inflight == s.table.inflight[key := |s.workers|] - {key}
    ensures forall k | k in t.table.inflight :: t.table.inflight[k] != |s.workers|
  {
    forall k | k in t.table.inflight ensures t.table.inflight[k] != |s.workers| {
      assert EntryInv(s, k);
    }
  }

  /** A running worker not yet signalled is missed by the very next cancel once its key has been read
      again: the new worker's cancel function has taken its place in the table. */
  lemma RepeatMisses(s: State, v: nat) returns (more: seq<Event>)
    requires v < |s.workers| && s.workers[v].phase == Running
    requires Inv(s, s.workers[v].key) && s.loop == Reading && !s.table.contexts[v]
    ensures var k := s.workers[v].key;
            var t := AfterRead(s, InvokeOf(k));
            FreshRun(t, more, |more|, k) && Missed(After(t, more, |more|), v)
  {
    var k := s.workers[v].key;
    var t := AfterRead(s, InvokeOf(k));
    more := [Read(Cancel(k.session, 0))];
    assert After(t, more, 0) == t && FreshRun(t, more, 0, k);
    var end := After(t, more, 1);
    assert end == Step(t, Read(Cancel(k.session, 0)));
    assert WorkerInv(s, v);
    forall key | key in t.table.inflight ensures t.table.inflight[key] != v {
      assert key in s.table.inflight ==> EntryInv(s, key);
    }
    assert IsCancelOf(end.read[|s.read| + 1], k.session);
  }

  /** From the start: for every session and event, two invocations with that key and one answer leave the
      second out of a later cancel's reach. */
  lemma SharedKeyStrands(session: SessionId, event: nat, cancel: nat)
    ensures var events := [Read(Invoke(session, event)), Read(Invoke(session, event)), Reply(0), Forget(0),
                           Read(Cancel(session, cancel)), Finish];
            var s := After(START, events, 6);
            && s.loop == Reading && |s.workers| == |s.table.contexts| == 2 && s.workers[1].phase == Running
            && CancelRequested(s.read, s.workers[1].at, session) && !s.table.contexts[1]
  {
    var key := Key(session, event);
    var events := [Read(Invoke(session, event)), Read(Invoke(session, event)), Reply(0), Forget(0),
                   Read(Cancel(session, cancel)), Finish];
    var s2 := After(START, events, 2);
    assert After(START, events, 1).workers == [Worker(key, 0, Running)];
    assert s2.workers == [Worker(key, 0, Running), Worker(key, 1, Running)];
    assert s2.table == Table(map[key := 1], [false, false]);
    var s4 := After(START, events, 4);
    assert After(START, events, 3).workers == [Worker(key, 0, Replied), Worker(key, 1, Running)];
    assert s4.table.inflight == map[];
    var s5 := After(START, events, 5);
    assert Matched(s4.table.inflight, Some(session)) == {};
    assert IsCancelOf(s5.read[2], session);
  }
}
