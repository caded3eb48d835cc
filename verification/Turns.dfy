/** One turn of the model loop: draining a chat stream, deciding whether the turn goes on, running the
    tool calls and building the next request. */
module Turns {
  import opened Wrappers
  import opened Sessions

  /** A tool call as the model asked for it. */
  datatype Call = Call(callId: string, name: string, arguments: string)

  /** What a chat stream carries.  `Text`, `Reasoned` and `Stored` stand for every payload that is
      neither a tool call nor terminal. */
  datatype Payload =
    | Text(delta: string)
    | Reasoned(delta: string)
    | Stored(item: Item)
    | Calls(call: Call)
    | DonePayload
    | ErrorPayload(message: string)
  {
    predicate Terminal() {
      DonePayload? || ErrorPayload?
    }
  }

  /** What a step tells the turn manager when it is finished. */
  datatype StepEvent = RunTools(calls: seq<Call>) | StepDone

  function ToSession(p: Payload): Event {
    match p
    case Text(delta) => TextDelta(delta)
    case Reasoned(delta) => ReasoningDelta(delta)
    case Stored(item) => OutputItem(item)
    case Calls(call) => OutputItem(ToolCall(call.callId))
    case DonePayload => ChatDone
    case ErrorPayload(message) => Failure(message)
  }

  // ---------------------------------------------------------------- reference definitions

  /** The part of the stream that is looked at: up to the first terminal event. */
  function Seen(stream: seq<Payload>): seq<Payload> {
    if stream == [] then []
    else if stream[0].Terminal() then [stream[0]]
    else [stream[0]] + Seen(stream[1..])
  }

  function CallsOf(stream: seq<Payload>): seq<Call> {
    if stream == [] then []
    else CallsOf(stream[..|stream| - 1]) + if stream[|stream| - 1].Calls? then [stream[|stream| - 1].call] else []
  }

  predicate TellsEnd(e: Event) {
    e.ChatDone? || e.Failure?
  }

  /** Everything is forwarded to the session, except a Done while tool calls are outstanding. */
  function Forwarded(seen: seq<Payload>): seq<Event> {
    if seen == [] then []
    else
      var front, last := seen[..|seen| - 1], seen[|seen| - 1];
      Forwarded(front) + if last.DonePayload? && CallsOf(front) != [] then [] else [ToSession(last)]
  }

  // ---------------------------------------------------------------- the loop

  lemma {:induction false} SeenPrefix(stream: seq<Payload>, n: nat)
    requires n <= |stream| && forall i | 0 <= i < n :: !stream[i].Terminal()
    ensures n < |stream| && stream[n].Terminal() ==> Seen(stream) == stream[..n + 1]
    ensures n == |stream| ==> Seen(stream) == stream
  {
    if n > 0 {
      SeenPrefix(stream[1..], n - 1);
      if n < |stream| { assert stream[..n + 1] == [stream[0]] + stream[1..][..n]; }
    } else if stream != [] {
      assert stream[..1] == [stream[0]];
    }
  }

  /** An error is seen just when it is what the draining stopped at. */
  lemma SeenErrs(stream: seq<Payload>, n: nat)
    requires n <= |stream| && forall i | 0 <= i < n :: !stream[i].Terminal()
    ensures n < |stream| && stream[n].Terminal() ==> (Errs(stream) <==> stream[n].ErrorPayload?)
    ensures n == |stream| ==> !Errs(stream)
  {
    SeenPrefix(stream, n);
    if n < |stream| && stream[n].ErrorPayload? {
      assert Seen(stream)[n].ErrorPayload?;
    }
  }

  predicate Errs(stream: seq<Payload>) {
    exists i :: 0 <= i < |Seen(stream)| && Seen(stream)[i].ErrorPayload?
  }

  /** Drains the stream: collects the tool calls, forwards events, stops at the first terminal one. */
  method ExhaustEvents(stream: seq<Payload>) returns (calls: seq<Call>, errored: bool, forwarded: seq<Event>)
    ensures calls == CallsOf(Seen(stream))
    ensures errored <==> Errs(stream)
    ensures forwarded == Forwarded(Seen(stream))
  {
    calls, errored, forwarded := [], false, [];
    var n := 0;
    while n < |stream|
      invariant 0 <= n <= |stream|
      invariant forall i | 0 <= i < n :: !stream[i].Terminal()
      invariant calls == CallsOf(stream[..n]) && !errored && forwarded == Forwarded(stream[..n])
    {
      var payload := stream[n];
      assert stream[..n + 1] == stream[..n] + [payload];
      ForwardedSnoc(stream[..n], payload);
      if payload.Calls? {
        calls := calls + [payload.call];
      }
      errored := payload.ErrorPayload?;
      var terminal := payload.ErrorPayload? || payload.DonePayload?;
      if !payload.DonePayload? || calls == [] {
        forwarded := forwarded + [ToSession(payload)];
      }
      if terminal {
        SeenPrefix(stream, n);
        SeenErrs(stream, n);
        return;
      }
      n := n + 1;
    }
    SeenPrefix(stream, n);
    SeenErrs(stream, n);
    assert stream[..n] == stream;
  }

  method RunStep(stream: seq<Payload>) returns (event: StepEvent, forwarded: seq<Event>)
    ensures forwarded == Forwarded(Seen(stream))
    ensures event == StepResult(stream)
  {
    var calls, errored;
    calls, errored, forwarded := ExhaustEvents(stream);
    if !errored && calls != [] {
      event := RunTools(calls);
    } else {
      event := StepDone;
    }
  }

  function StepResult(stream: seq<Payload>): StepEvent {
    if !Errs(stream) && CallsOf(Seen(stream)) != [] then RunTools(CallsOf(Seen(stream))) else StepDone
  }

  // ---------------------------------------------------------------- one step: told or continued

  /** How many of the forwarded events tell the session that the turn is over. */
  function Ends(events: seq<Event>): nat {
    if events == [] then 0
    else Ends(events[..|events| - 1]) + if TellsEnd(events[|events| - 1]) then 1 else 0
  }

  predicate HasTerminal(stream: seq<Payload>) {
    exists i :: 0 <= i < |stream| && stream[i].Terminal()
  }

  lemma {:induction false} SeenShape(stream: seq<Payload>)
    ensures forall i | 0 <= i < |Seen(stream)| - 1 :: !Seen(stream)[i].Terminal()
    ensures HasTerminal(stream) <==> Seen(stream) != [] && Seen(stream)[|Seen(stream)| - 1].Terminal()
  {
    if stream != [] && !stream[0].Terminal() {
      SeenShape(stream[1..]);
      assert HasTerminal(stream) <==> HasTerminal(stream[1..]) by {
        if HasTerminal(stream) {
          var i :| 0 <= i < |stream| && stream[i].Terminal();
          assert stream[1..][i - 1].Terminal();
        }
        if HasTerminal(stream[1..]) {
          var i :| 0 <= i < |stream[1..]| && stream[1..][i].Terminal();
          assert stream[i + 1].Terminal();
        }
      }
    }
  }

  lemma {:induction false} NoEndBefore(front: seq<Payload>)
    requires forall i | 0 <= i < |front| :: !front[i].Terminal()
    ensures Ends(Forwarded(front)) == 0
  {
    if front != [] {
      NoEndBefore(front[..|front| - 1]);
      EndsSnoc(Forwarded(front[..|front| - 1]), ToSession(front[|front| - 1]));
      assert !front[|front| - 1].Terminal();
    }
  }

  lemma {:induction false} EndsSnoc(events: seq<Event>, e: Event)
    ensures Ends(events + [e]) == Ends(events) + if TellsEnd(e) then 1 else 0
  {
    assert (events + [e])[..|events|] == events;
  }

  lemma {:induction false} ForwardedSnoc(front: seq<Payload>, last: Payload)
    ensures Forwarded(front + [last])
         == Forwarded(front) + if last.DonePayload? && CallsOf(front) != [] then [] else [ToSession(last)]
    ensures CallsOf(front + [last]) == CallsOf(front) + if last.Calls? then [last.call] else []
  {
    assert (front + [last])[..|front|] == front;
  }

  /** The events forwarded for a stream seen as `front` then `last`. */
  lemma {:induction false} LastTells(front: seq<Payload>, last: Payload)
    requires forall i | 0 <= i < |front| :: !front[i].Terminal()
    ensures var f := Forwarded(front + [last]);
            var tells := last.ErrorPayload? || (last.DonePayload? && CallsOf(front) == []);
            && Ends(f) == (if tells then 1 else 0)
            && (tells ==> f != [] && TellsEnd(f[|f| - 1]))
  {
    ForwardedSnoc(front, last);
    NoEndBefore(front);
    if !(last.DonePayload? && CallsOf(front) != []) {
      EndsSnoc(Forwarded(front), ToSession(last));
    } else {
      assert Forwarded(front) + [] == Forwarded(front);
    }
  }

  lemma SeenSplit(stream: seq<Payload>) returns (front: seq<Payload>, last: Payload)
    requires Seen(stream) != []
    ensures Seen(stream) == front + [last]
    ensures forall i | 0 <= i < |front| :: !front[i].Terminal()
    ensures HasTerminal(stream) <==> last.Terminal()
    ensures Errs(stream) <==> last.ErrorPayload?
    ensures CallsOf(Seen(stream)) == CallsOf(front) + if last.Calls? then [last.call] else []
  {
    SeenShape(stream);
    var seen := Seen(stream);
    front, last := seen[..|seen| - 1], seen[|seen| - 1];
    ForwardedSnoc(front, last);
    assert seen == front + [last];
    assert last.ErrorPayload? ==> Errs(stream) by { assert last == Seen(stream)[|seen| - 1]; }
  }

  /** A step tells the session that the turn is over at most once, as the last thing it forwards, and
      exactly when the stream errs, or is done with no tool call. */
  lemma {:induction false} StepTells(stream: seq<Payload>)
    ensures Ends(Forwarded(Seen(stream))) <= 1
    ensures Ends(Forwarded(Seen(stream))) == 1 <==> HasTerminal(stream) && StepResult(stream).StepDone?
    ensures Ends(Forwarded(Seen(stream))) == 1 ==>
      var f := Forwarded(Seen(stream)); f != [] && TellsEnd(f[|f| - 1])
  {
    SeenShape(stream);
    if Seen(stream) != [] {
      var front, last := SeenSplit(stream);
      LastTells(front, last);
    }
  }

  /** Either the session is told the turn is over or the next step is scheduled, never both; and never
      neither, exactly when the stream ends in a terminal event or carries a tool call. */
  lemma {:induction false} ToldOrContinued(stream: seq<Payload>)
    ensures !(Ends(Forwarded(Seen(stream))) == 1 && StepResult(stream).RunTools?)
    ensures (Ends(Forwarded(Seen(stream))) == 1 || StepResult(stream).RunTools?)
            <==> HasTerminal(stream) || CallsOf(Seen(stream)) != []
  {
    StepTells(stream);
    SeenShape(stream);
  }

  /** A provider stream that closes without a terminal event and without a tool call does neither: the
      turn manager is told the step is done while the session keeps running. */
  lemma SilentCloseLeavesRunning(text: string)
    ensures var stream := [Text(text)];
            StepResult(stream) == StepDone && Forwarded(Seen(stream)) == [TextDelta(text)]
            && Ends(Forwarded(Seen(stream))) == 0
  {
    var stream := [Text(text)];
    assert stream[1..] == [] && Seen(stream) == [] + stream;
    ForwardedSnoc([], Text(text));
    assert [] + [Text(text)] == stream && [] + [TextDelta(text)] == [TextDelta(text)];
    LastTells([], Text(text));
    assert !Errs(stream);
  }

  // ---------------------------------------------------------------- by positions of the stream

  /** Where the stream ends for the step: at its first terminal payload, or where it closes. */
  predicate IsEnd(stream: seq<Payload>, n: nat) {
    && n <= |stream| && (n < |stream| ==> stream[n].Terminal())
    && forall i | 0 <= i < n :: !stream[i].Terminal()
  }

  /** The calls are those at these positions before `n`: all of them, in order. */
  predicate CallsAt(stream: seq<Payload>, n: nat, at: seq<nat>, calls: seq<Call>)
    requires n <= |stream|
  {
    && |at| == |calls|
    && (forall j | 0 <= j < |at| :: at[j] < n && stream[at[j]] == Calls(calls[j]))
    && (forall i, j | 0 <= i < j < |at| :: at[i] < at[j])
    && (forall i | 0 <= i < n && stream[i].Calls? :: i in at)
  }

  lemma {:induction false} CallPositions(stream: seq<Payload>, n: nat) returns (at: seq<nat>)
    requires n <= |stream|
    ensures CallsAt(stream, n, at, CallsOf(stream[..n]))
  {
    at := [];
    if n > 0 {
      var before := CallPositions(stream, n - 1);
      assert stream[..n][..n - 1] == stream[..n - 1];
      at := before + if stream[n - 1].Calls? then [n - 1] else [];
      forall i | 0 <= i < n && stream[i].Calls? ensures i in at {
        assert i < n - 1 ==> i in before;
        assert i == n - 1 ==> at[|before|] == i;
      }
    }
  }

  /** A step goes on just when a tool was called before the end of its stream and it did not end in an
      error; what it schedules is every call before the end, in order, name and arguments included. */
  lemma {:induction false} ScheduledExactly(stream: seq<Payload>, n: nat) returns (at: seq<nat>)
    requires IsEnd(stream, n)
    ensures StepResult(stream).RunTools?
       <==> CallBefore(stream, n) && !(n < |stream| && stream[n].ErrorPayload?)
    ensures StepResult(stream).RunTools? ==> CallsAt(stream, n, at, StepResult(stream).calls)
  {
    at := CallPositions(stream, n);
    SeenPrefix(stream, n);
    SeenErrs(stream, n);
    assert CallsOf(Seen(stream)) == CallsOf(stream[..n]) by {
      if n < |stream| {
        assert stream[..n + 1][..n] == stream[..n];
      } else {
        assert stream[..n] == stream;
      }
    }
    CallBeforeIff(stream, n);
  }

  /** What the session is told for a payload: text, reasoning and items as they are, a call as an item, and
      either end of the turn. */
  predicate TellsAs(p: Payload, e: Event) {
    && (p.Text? ==> e == TextDelta(p.delta))
    && (p.Reasoned? ==> e == ReasoningDelta(p.delta))
    && (p.Stored? ==> e == OutputItem(p.item))
    && (p.Calls? ==> e == OutputItem(ToolCall(p.call.callId)))
    && (p.DonePayload? ==> e == ChatDone)
    && (p.ErrorPayload? ==> e == Failure(p.message))
  }

  predicate CallBefore(stream: seq<Payload>, n: nat)
    requires n <= |stream|
  {
    exists i | 0 <= i < n :: stream[i].Calls?
  }

  lemma {:induction false} CallBeforeIff(stream: seq<Payload>, n: nat)
    requires n <= |stream|
    ensures CallBefore(stream, n) <==> CallsOf(stream[..n]) != []
  {
    var at := CallPositions(stream, n);
    if CallsOf(stream[..n]) != [] {
      assert stream[at[0]].Calls?;
    }
  }

  predicate ToldExactly(stream: seq<Payload>, n: nat, f: seq<Event>)
    requires n <= |stream|
  {
    && |f| == (if n < |stream| && !(stream[n].DonePayload? && CallBefore(stream, n)) then n + 1 else n)
    && forall i | 0 <= i < |f| :: TellsAs(stream[i], f[i])
  }

  /** Every payload up to the end is told to the session, in order, only a Done after tool calls is not. */
  lemma {:induction false} ForwardedExactly(stream: seq<Payload>, n: nat)
    requires IsEnd(stream, n)
    ensures ToldExactly(stream, n, Forwarded(Seen(stream)))
  {
    ForwardedFront(stream, n);
    CallBeforeIff(stream, n);
    SeenAs(stream, n);
    if n < |stream| {
      LastForwarded(stream[..n], stream[n]);
      OneMoreTold(stream, n, Forwarded(stream[..n]), Forwarded(stream[..n] + [stream[n]]));
    }
  }

  lemma {:induction false} SeenAs(stream: seq<Payload>, n: nat)
    requires IsEnd(stream, n)
    ensures Seen(stream) == if n < |stream| then stream[..n] + [stream[n]] else stream[..n]
  {
    SeenPrefix(stream, n);
    if n < |stream| {
      assert stream[..n + 1] == stream[..n] + [stream[n]];
    } else {
      assert stream[..n] == stream;
    }
  }

  lemma {:induction false} OneMoreTold(stream: seq<Payload>, n: nat, before: seq<Event>, after: seq<Event>)
    requires n < |stream| && |before| == n && forall i | 0 <= i < n :: TellsAs(stream[i], before[i])
    requires if stream[n].DonePayload? && CallBefore(stream, n) then after == before
             else |after| == n + 1 && after[..n] == before && TellsAs(stream[n], after[n])
    ensures ToldExactly(stream, n, after)
  {
    forall i | 0 <= i < |after| ensures TellsAs(stream[i], after[i]) {
      assert i < n ==> after[i] == before[i];
    }
  }

  lemma {:induction false} LastForwarded(front: seq<Payload>, last: Payload)
    ensures var f, more := Forwarded(front), Forwarded(front + [last]);
            if last.DonePayload? && CallsOf(front) != [] then more == f
            else |more| == |f| + 1 && more[..|f|] == f && TellsAs(last, more[|f|])
  {
    ForwardedSnoc(front, last);
  }

  lemma {:induction false} ForwardedFront(stream: seq<Payload>, n: nat)
    requires n <= |stream| && forall i | 0 <= i < n :: !stream[i].Terminal()
    ensures |Forwarded(stream[..n])| == n && forall i | 0 <= i < n :: TellsAs(stream[i], Forwarded(stream[..n])[i])
  {
    if n > 0 {
      ForwardedFront(stream, n - 1);
      assert stream[..n] == stream[..n - 1] + [stream[n - 1]];
      ForwardedSnoc(stream[..n - 1], stream[n - 1]);
      assert !stream[n - 1].Terminal();
    }
  }

  /** The session fed the forwarded events one by one, every store succeeding. */
  function Feed(v: View, events: seq<Event>, cleanup: Cleanup): View {
    if events == [] then v
    else AfterEvent(Feed(v, events[..|events| - 1], cleanup), events[|events| - 1], true, true, cleanup)
  }

  predicate IsRunning(v: View) {
    v.session.Some? && v.session.value.terminal == Running
  }

  lemma EventEnds(v: View, e: Event, cleanup: Cleanup)
    requires IsRunning(v) && !e.UserPrompt? && !e.ChatError?
    ensures IsRunning(AfterEvent(v, e, true, true, cleanup)) <==> !TellsEnd(e)
  {
  }

  lemma {:induction false} FeedSnoc(v: View, events: seq<Event>, e: Event, cleanup: Cleanup)
    ensures Feed(v, events + [e], cleanup) == AfterEvent(Feed(v, events, cleanup), e, true, true, cleanup)
  {
    assert (events + [e])[..|events|] == events;
  }

  /** Events that neither end a turn nor start one. */
  predicate Ongoing(events: seq<Event>) {
    forall i | 0 <= i < |events| :: !TellsEnd(events[i]) && !events[i].UserPrompt? && !events[i].ChatError?
  }

  lemma EventStores(v: View, e: Event, cleanup: Cleanup)
    requires IsRunning(v) && !TellsEnd(e) && !e.UserPrompt? && !e.ChatError?
    ensures IsRunning(AfterEvent(v, e, true, true, cleanup))
    ensures AfterEvent(v, e, true, true, cleanup).history == Persisted(v, e).history
  {
  }

  /** A running session fed such events keeps running, and its history grows by exactly what they store. */
  lemma {:induction false} FeedStores(v: View, events: seq<Event>, cleanup: Cleanup)
    requires IsRunning(v) && Ongoing(events)
    ensures IsRunning(Feed(v, events, cleanup)) && Feed(v, events, cleanup).history == Persist(v.history, events)
  {
    if events != [] {
      var before, last := events[..|events| - 1], events[|events| - 1];
      FeedStores(v, before, cleanup);
      EventStores(Feed(v, before, cleanup), last, cleanup);
    }
  }

  lemma {:induction false} ForwardedOngoing(front: seq<Payload>)
    requires forall i | 0 <= i < |front| :: !front[i].Terminal()
    ensures Ongoing(Forwarded(front))
  {
    if front != [] {
      ForwardedOngoing(front[..|front| - 1]);
      assert !front[|front| - 1].Terminal();
    }
  }

  lemma {:induction false} KeepsRunning(v: View, front: seq<Payload>, cleanup: Cleanup)
    requires IsRunning(v) && forall i | 0 <= i < |front| :: !front[i].Terminal()
    ensures IsRunning(Feed(v, Forwarded(front), cleanup))
  {
    ForwardedOngoing(front);
    FeedStores(v, Forwarded(front), cleanup);
  }

  /** A step that goes on with tool calls forwards nothing that ends the turn. */
  lemma {:induction false} ToolStepOngoing(stream: seq<Payload>)
    requires StepResult(stream).RunTools?
    ensures Ongoing(Forwarded(Seen(stream)))
  {
    if Seen(stream) != [] {
      var front, last := SeenSplit(stream);
      ForwardedOngoing(front);
      ForwardedSnoc(front, last);
    }
  }

  /** A running session that is fed a step's events stops exactly when the step tells it to: it keeps
      running exactly when the stream has no terminal event or goes on with tool calls. */
  lemma {:induction false} SessionStopsWhenTold(v: View, stream: seq<Payload>, cleanup: Cleanup)
    requires IsRunning(v)
    ensures IsRunning(Feed(v, Forwarded(Seen(stream)), cleanup)) <==> !HasTerminal(stream) || StepResult(stream).RunTools?
  {
    SeenShape(stream);
    if Seen(stream) != [] {
      var front, last := SeenSplit(stream);
      ForwardedSnoc(front, last);
      var more := if last.DonePayload? && CallsOf(front) != [] then [] else [ToSession(last)];
      KeepsRunning(v, front, cleanup);
      LastStops(v, Forwarded(front), more, last, cleanup);
    } else {
      assert Forwarded(Seen(stream)) == [];
    }
  }

  lemma {:induction false} LastStops(v: View, events: seq<Event>, more: seq<Event>, last: Payload, cleanup: Cleanup)
    requires IsRunning(Feed(v, events, cleanup))
    requires more == [ToSession(last)] || more == []
    ensures IsRunning(Feed(v, events + more, cleanup)) <==> more == [] || !last.Terminal()
  {
    if more == [] {
      assert events + more == events;
    } else {
      FeedSnoc(v, events, ToSession(last), cleanup);
      EventEnds(Feed(v, events, cleanup), ToSession(last), cleanup);
    }
  }

  // ---------------------------------------------------------------- the whole turn

  /** What the session makes of one forwarded event when its store succeeds. */
  function Persist(history: seq<Item>, events: seq<Event>): seq<Item> {
    if events == [] then history
    else
      var before := Persist(history, events[..|events| - 1]);
      match StoredItem(events[|events| - 1]) case Some(item) => before + [item] case None => before
  }

  /** The tool results recorded for finished calls, in call order. */
  method RecordResults(history: seq<Item>, calls: seq<Call>) returns (after: seq<Item>)
    ensures after == WithResults(history, calls)
  {
    after := history;
    for i := 0 to |calls|
      invariant after == WithResults(history, calls[..i])
    {
      after := after + [ToolResult(calls[i].callId)];
      assert calls[..i + 1][..i] == calls[..i];
    }
    assert calls[..|calls|] == calls;
  }

  function WithResults(history: seq<Item>, calls: seq<Call>): seq<Item> {
    if calls == [] then history
    else WithResults(history, calls[..|calls| - 1]) + [ToolResult(calls[|calls| - 1].callId)]
  }

  function ResultEvents(calls: seq<Call>): seq<Event> {
    seq(|calls|, i requires 0 <= i < |calls| => OutputItem(ToolResult(calls[i].callId)))
  }

  lemma {:induction false} ResultsPersist(history: seq<Item>, calls: seq<Call>)
    ensures Persist(history, ResultEvents(calls)) == WithResults(history, calls)
  {
    if calls != [] {
      var front := calls[..|calls| - 1];
      ResultsPersist(history, front);
      assert ResultEvents(calls)[..|calls| - 1] == ResultEvents(front);
    }
  }

  /** The session after a step that asked for tools and the results of those tools. */
  function AfterStep(v: View, stream: seq<Payload>, cleanup: Cleanup): View
    requires StepResult(stream).RunTools?
  {
    Feed(Feed(v, Forwarded(Seen(stream)), cleanup), ResultEvents(StepResult(stream).calls), cleanup)
  }

  /** The session actor stores the step's items and then one result for each call the step scheduled. */
  lemma {:induction false} StepStores(v: View, stream: seq<Payload>, cleanup: Cleanup)
    requires IsRunning(v) && StepResult(stream).RunTools?
    ensures IsRunning(AfterStep(v, stream, cleanup))
    ensures AfterStep(v, stream, cleanup).history
         == WithResults(Persist(v.history, Forwarded(Seen(stream))), StepResult(stream).calls)
  {
    var calls := CallsOf(Seen(stream));
    ToolStepOngoing(stream);
    FeedStores(v, Forwarded(Seen(stream)), cleanup);
    FeedStores(Feed(v, Forwarded(Seen(stream)), cleanup), ResultEvents(calls), cleanup);
    ResultsPersist(Persist(v.history, Forwarded(Seen(stream))), calls);
  }

  /** The histories a turn sends to the model: the session's after the prompt, then one after each step
      that asked for tools. */
  function Requests(v: View, streams: seq<seq<Payload>>, cleanup: Cleanup): seq<seq<Item>>
    decreases |streams|
  {
    if streams != [] && StepResult(streams[0]).RunTools? then
      [v.history] + Requests(AfterStep(v, streams[0], cleanup), streams[1..], cleanup)
    else [v.history]
  }

  function CallIds(history: seq<Item>): seq<string> {
    if history == [] then []
    else CallIds(history[..|history| - 1])
         + if history[|history| - 1].ToolCall? then [history[|history| - 1].callId] else []
  }

  function ResultIds(history: seq<Item>): seq<string> {
    if history == [] then []
    else ResultIds(history[..|history| - 1])
         + if history[|history| - 1].ToolResult? then [history[|history| - 1].resultId] else []
  }

  /** No result stands before its call: wherever the history is cut, the results so far answer the first
      calls so far, in call order. */
  predicate InOrder(history: seq<Item>) {
    forall n | 0 <= n <= |history| :: ResultIds(history[..n]) <= CallIds(history[..n])
  }

  /** Every recorded tool call has exactly one result, after it, and results come in call order. */
  predicate Balanced(history: seq<Item>) {
    CallIds(history) == ResultIds(history) && InOrder(history)
  }

  /** A model stream carries tool calls as calls and never tool results. */
  predicate ModelStream(stream: seq<Payload>) {
    forall i | 0 <= i < |stream| && stream[i].Stored? :: !stream[i].item.ToolCall? && !stream[i].item.ToolResult?
  }

  lemma {:induction false} IdsSnoc(history: seq<Item>, item: Item)
    ensures CallIds(history + [item]) == CallIds(history) + if item.ToolCall? then [item.callId] else []
    ensures ResultIds(history + [item]) == ResultIds(history) + if item.ToolResult? then [item.resultId] else []
  {
    assert (history + [item])[..|history|] == history;
  }

  function Ids(calls: seq<Call>): seq<string> {
    seq(|calls|, i requires 0 <= i < |calls| => calls[i].callId)
  }

  lemma {:induction false} SeenIsModel(stream: seq<Payload>)
    requires ModelStream(stream)
    ensures ModelStream(Seen(stream))
  {
    if stream != [] && !stream[0].Terminal() {
      assert forall i | 0 <= i < |stream[1..]| :: stream[1..][i] == stream[i + 1];
      SeenIsModel(stream[1..]);
    }
  }

  predicate Records(history: seq<Item>, seen: seq<Payload>) {
    var after := Persist(history, Forwarded(seen));
    CallIds(after) == CallIds(history) + Ids(CallsOf(seen)) && ResultIds(after) == ResultIds(history)
  }

  lemma RecordsNext(history: seq<Item>, front: seq<Payload>, last: Payload)
    requires Records(history, front) && (last.Stored? ==> !last.item.ToolCall? && !last.item.ToolResult?)
    ensures Records(history, front + [last])
  {
    ForwardedSnoc(front, last);
    PersistNext(history, Forwarded(front),
                if last.DonePayload? && CallsOf(front) != [] then [] else [ToSession(last)], last);
    IdsOfSnoc(CallsOf(front), last);
    IdsAssoc(CallIds(history), Ids(CallsOf(front)), if last.Calls? then [last.call.callId] else []);
  }

  /** Persisting a step's events records its tool calls, in order, and no results. */
  lemma {:induction false} PersistRecordsCalls(history: seq<Item>, seen: seq<Payload>)
    requires ModelStream(seen)
    ensures Records(history, seen)
  {
    if seen == [] {
      assert CallIds(history) + Ids([]) == CallIds(history);
    } else {
      var front, last := seen[..|seen| - 1], seen[|seen| - 1];
      PersistRecordsCalls(history, front);
      RecordsNext(history, front, last);
      assert seen == front + [last];
    }
  }

  lemma IdsOfSnoc(calls: seq<Call>, last: Payload)
    ensures Ids(calls + if last.Calls? then [last.call] else [])
         == Ids(calls) + if last.Calls? then [last.call.callId] else []
  {
  }

  function CallsIn(e: Event): seq<string> {
    if e.OutputItem? && e.item.ToolCall? then [e.item.callId] else []
  }

  function ResultsIn(e: Event): seq<string> {
    if e.OutputItem? && e.item.ToolResult? then [e.item.resultId] else []
  }

  lemma NoneMore(a: seq<string>)
    ensures a + [] == a
  {
  }

  /** Persisting one more event records its item, if it has one. */
  lemma {:induction false} PersistOne(history: seq<Item>, events: seq<Event>, e: Event)
    ensures CallIds(Persist(history, events + [e])) == CallIds(Persist(history, events)) + CallsIn(e)
    ensures ResultIds(Persist(history, events + [e])) == ResultIds(Persist(history, events)) + ResultsIn(e)
  {
    assert (events + [e])[..|events|] == events;
    var before := Persist(history, events);
    NoneMore(CallIds(before));
    NoneMore(ResultIds(before));
    match StoredItem(e) {
      case Some(item) => IdsSnoc(before, item);
      case None =>
    }
  }

  lemma {:induction false} PersistNext(history: seq<Item>, events: seq<Event>, more: seq<Event>, last: Payload)
    requires last.Stored? ==> !last.item.ToolCall? && !last.item.ToolResult?
    requires more == [ToSession(last)] || (more == [] && last.DonePayload?)
    ensures CallIds(Persist(history, events + more))
         == CallIds(Persist(history, events)) + if last.Calls? then [last.call.callId] else []
    ensures ResultIds(Persist(history, events + more)) == ResultIds(Persist(history, events))
  {
    NoneMore(ResultIds(Persist(history, events)));
    if more == [] {
      NoneMore(CallIds(Persist(history, events)));
      assert events + more == events;
    } else {
      assert CallsIn(ToSession(last)) == if last.Calls? then [last.call.callId] else [];
      assert ResultsIn(ToSession(last)) == [];
      PersistOne(history, events, ToSession(last));
    }
  }

  lemma IdsAssoc(a: seq<string>, b: seq<string>, c: seq<string>)
    ensures a + b + c == a + (b + c)
  {
  }

  lemma {:induction false} ResultsRecorded(history: seq<Item>, calls: seq<Call>)
    ensures CallIds(WithResults(history, calls)) == CallIds(history)
    ensures ResultIds(WithResults(history, calls)) == ResultIds(history) + Ids(calls)
  {
    if calls == [] {
      assert ResultIds(history) + [] == ResultIds(history);
    } else {
      var front, last := calls[..|calls| - 1], calls[|calls| - 1];
      ResultsRecorded(history, front);
      IdsSnoc(WithResults(history, front), ToolResult(last.callId));
      assert Ids(calls) == Ids(front) + [last.callId];
      assert CallIds(history) + [] == CallIds(history);
      IdsAssoc(ResultIds(history), Ids(front), [last.callId]);
    }
  }

  lemma {:induction false} InOrderSnoc(history: seq<Item>, item: Item)
    requires InOrder(history) && ResultIds(history + [item]) <= CallIds(history + [item])
    ensures InOrder(history + [item])
  {
    var after := history + [item];
    forall n | 0 <= n <= |after| ensures ResultIds(after[..n]) <= CallIds(after[..n]) {
      if n <= |history| {
        assert after[..n] == history[..n];
      } else {
        assert after[..n] == after;
      }
    }
  }

  predicate NoResults(events: seq<Event>) {
    forall i | 0 <= i < |events| :: ResultsIn(events[i]) == []
  }

  lemma {:induction false} ForwardsNoResults(seen: seq<Payload>)
    requires ModelStream(seen)
    ensures NoResults(Forwarded(seen))
  {
    if seen != [] {
      ForwardsNoResults(seen[..|seen| - 1]);
      assert ResultsIn(ToSession(seen[|seen| - 1])) == [];
    }
  }

  /** Recording calls and anything but results keeps the order. */
  lemma {:induction false} PersistInOrder(history: seq<Item>, events: seq<Event>)
    requires InOrder(history) && NoResults(events)
    ensures InOrder(Persist(history, events))
  {
    if events != [] {
      var front, e := events[..|events| - 1], events[|events| - 1];
      PersistInOrder(history, front);
      if StoredItem(e).Some? {
        CallAdded(Persist(history, front), StoredItem(e).value);
      }
    }
  }

  lemma {:induction false} CallAdded(history: seq<Item>, item: Item)
    requires InOrder(history) && !item.ToolResult?
    ensures InOrder(history + [item])
  {
    IdsSnoc(history, item);
    NoneMore(ResultIds(history));
    assert history[..|history|] == history;
    InOrderSnoc(history, item);
  }

  /** Recording results for calls that are there and not yet answered keeps the order. */
  lemma {:induction false} ResultsInOrder(history: seq<Item>, calls: seq<Call>)
    requires InOrder(history) && ResultIds(history) + Ids(calls) <= CallIds(history)
    ensures InOrder(WithResults(history, calls))
  {
    if calls != [] {
      var front, last := calls[..|calls| - 1], calls[|calls| - 1];
      assert Ids(calls) == Ids(front) + [last.callId];
      IdsAssoc(ResultIds(history), Ids(front), [last.callId]);
      ResultsInOrder(history, front);
      ResultsRecorded(history, front);
      ResultAdded(WithResults(history, front), last.callId);
    }
  }

  lemma {:induction false} ResultAdded(history: seq<Item>, id: string)
    requires InOrder(history) && ResultIds(history) + [id] <= CallIds(history)
    ensures InOrder(history + [ToolResult(id)])
  {
    IdsSnoc(history, ToolResult(id));
    NoneMore(CallIds(history));
    InOrderSnoc(history, ToolResult(id));
  }

  /** Whenever a turn builds a request for the model from its session's history, however many steps it has
      taken, every tool call recorded has exactly one result, after it, in call order. */
  lemma {:induction false} EveryRequestBalanced(v: View, streams: seq<seq<Payload>>, cleanup: Cleanup)
    requires IsRunning(v) && Balanced(v.history) && forall i | 0 <= i < |streams| :: ModelStream(streams[i])
    ensures forall i | 0 <= i < |Requests(v, streams, cleanup)| :: Balanced(Requests(v, streams, cleanup)[i])
    decreases |streams|
  {
    if streams != [] && StepResult(streams[0]).RunTools? {
      StepBalances(v, streams[0], cleanup);
      EveryRequestBalanced(AfterStep(v, streams[0], cleanup), streams[1..], cleanup);
    }
  }

  lemma StepBalances(v: View, stream: seq<Payload>, cleanup: Cleanup)
    requires IsRunning(v) && Balanced(v.history) && ModelStream(stream) && StepResult(stream).RunTools?
    ensures IsRunning(AfterStep(v, stream, cleanup)) && Balanced(AfterStep(v, stream, cleanup).history)
  {
    var seen := Seen(stream);
    StepStores(v, stream, cleanup);
    SeenIsModel(stream);
    PersistRecordsCalls(v.history, seen);
    ForwardsNoResults(seen);
    PersistInOrder(v.history, Forwarded(seen));
    ResultsInOrder(Persist(v.history, Forwarded(seen)), CallsOf(seen));
    ResultsRecorded(Persist(v.history, Forwarded(seen)), CallsOf(seen));
  }
}
