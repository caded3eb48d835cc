/** Everything a subscriber is shown: prompts, text and tools in one order, reasoning, and the end.  A
    replay tells the stored history, and what it tells of the current run is what was shown live. */
module SessionReplays {
  import opened Wrappers
  import opened Sessions
  import opened SessionRuns

  /** What is on a screen: the characters of the text, each prompt with its words, and tools. */
  datatype Token = Letter(c: char) | PromptMark(words: string) | ToolMark

  function Letters(text: string): seq<Token> {
    seq(|text|, i requires 0 <= i < |text| => Letter(text[i]))
  }

  function RenderTokens(r: Render): seq<Token> {
    match r
    case TextShown(text) => Letters(text)
    case PromptShown(words) => [PromptMark(words)]
    case ToolShown => [ToolMark]
    case _ => []
  }

  function RenderReasoning(r: Render): string {
    if r.ReasoningShown? then r.reasoning else ""
  }

  function TokensOf(renders: seq<Render>): seq<Token> {
    if renders == [] then [] else TokensOf(renders[..|renders| - 1]) + RenderTokens(renders[|renders| - 1])
  }

  function ReasoningOf(renders: seq<Render>): string {
    if renders == [] then "" else ReasoningOf(renders[..|renders| - 1]) + RenderReasoning(renders[|renders| - 1])
  }

  /** What a stored item should show. */
  function ItemTokens(item: Item, shows: Item -> bool): seq<Token> {
    match item
    case Prompt(words) => [PromptMark(words)]
    case Message(parts) => Letters(JoinLines(parts))
    case ToolCall(_) => if shows(item) then [ToolMark] else []
    case HostedTool => [ToolMark]
    case Reasoning => []
    case ToolResult(_) => []
  }

  function HistoryTokens(history: seq<Item>, shows: Item -> bool): seq<Token> {
    if history == [] then []
    else HistoryTokens(history[..|history| - 1], shows) + ItemTokens(history[|history| - 1], shows)
  }

  /** What an event should show, the reasoning it carries, and the end it tells. */
  function EventTokens(e: Event, shown: bool): seq<Token> {
    match e
    case TextDelta(text) => Letters(text)
    case UserPrompt(words) => [PromptMark(words)]
    case OutputItem(ToolCall(_)) => if shown then [ToolMark] else []
    case OutputItem(HostedTool) => [ToolMark]
    case _ => []
  }

  function EventReasoning(e: Event): string {
    if e.ReasoningDelta? then e.reasoning else ""
  }

  function EventEnd(e: Event): Option<Render> {
    match e
    case ChatDone => Some(Done)
    case ChatError(message) => Some(Error(message))
    case Failure(message) => Some(Error(message))
    case _ => None
  }

  function DeltaReasoning(delta: seq<Event>): string {
    if delta == [] then "" else DeltaReasoning(delta[..|delta| - 1]) + EventReasoning(delta[|delta| - 1])
  }

  // ---------------------------------------------------------------- concatenation

  lemma Assoc<T>(a: seq<T>, b: seq<T>, c: seq<T>)
    ensures a + b + c == a + (b + c)
  {
  }

  lemma LettersConcat(a: string, b: string)
    ensures Letters(a + b) == Letters(a) + Letters(b) && Letters("") == []
  {
  }

  lemma {:induction false} TokensSnoc(a: seq<Render>, r: Render)
    ensures TokensOf(a + [r]) == TokensOf(a) + RenderTokens(r)
    ensures ReasoningOf(a + [r]) == ReasoningOf(a) + RenderReasoning(r)
  {
    assert (a + [r])[..|a|] == a;
  }

  lemma {:induction false} TokensConcat(a: seq<Render>, b: seq<Render>)
    ensures TokensOf(a + b) == TokensOf(a) + TokensOf(b)
    ensures ReasoningOf(a + b) == ReasoningOf(a) + ReasoningOf(b)
  {
    if b == [] {
      assert a + b == a;
    } else {
      var front, r := b[..|b| - 1], b[|b| - 1];
      TokensConcat(a, front);
      assert b == front + [r];
      Assoc(a, front, [r]);
      TokensSnoc(front, r);
      TokensSnoc(a + front, r);
      Assoc(TokensOf(a), TokensOf(front), RenderTokens(r));
      Assoc(ReasoningOf(a), ReasoningOf(front), RenderReasoning(r));
    }
  }

  lemma {:induction false} OneToken(r: Render)
    ensures TokensOf([r]) == RenderTokens(r) && ReasoningOf([r]) == RenderReasoning(r)
  {
    assert [r][..0] == [];
  }

  lemma {:induction false} HistorySnoc(history: seq<Item>, item: Item, shows: Item -> bool)
    ensures HistoryTokens(history + [item], shows) == HistoryTokens(history, shows) + ItemTokens(item, shows)
  {
    assert (history + [item])[..|history|] == history;
  }

  lemma {:induction false} HistoryConcat(a: seq<Item>, b: seq<Item>, shows: Item -> bool)
    ensures HistoryTokens(a + b, shows) == HistoryTokens(a, shows) + HistoryTokens(b, shows)
  {
    if b == [] {
      assert a + b == a;
    } else {
      var front, item := b[..|b| - 1], b[|b| - 1];
      HistoryConcat(a, front, shows);
      assert b == front + [item];
      Assoc(a, front, [item]);
      HistorySnoc(front, item, shows);
      HistorySnoc(a + front, item, shows);
      Assoc(HistoryTokens(a, shows), HistoryTokens(front, shows), ItemTokens(item, shows));
    }
  }

  /** The parts of a message are its lines. */
  lemma {:induction false} JoinedLines(a: seq<string>, b: seq<string>)
    requires a != [] && b != []
    ensures JoinLines(a + b) == JoinLines(a) + "\n" + JoinLines(b)
    ensures forall line :: JoinLines([line]) == line
  {
    assert a + b == [a[0]] + (a[1..] + b);
    if |a| > 1 {
      JoinedLines(a[1..], b);
    } else {
      assert a[1..] + b == b;
    }
  }

  // ---------------------------------------------------------------- what a replay tells

  lemma ItemShown(item: Item, shows: Item -> bool)
    ensures TokensOf(RenderItem(item, shows)) == ItemTokens(item, shows) && ReasoningOf(RenderItem(item, shows)) == ""
  {
    var renders := RenderItem(item, shows);
    if renders != [] {
      assert renders == [renders[0]];
      OneToken(renders[0]);
    }
  }

  lemma {:induction false} HistoryShown(history: seq<Item>, shows: Item -> bool)
    ensures TokensOf(RenderHistory(history, shows)) == HistoryTokens(history, shows)
    ensures ReasoningOf(RenderHistory(history, shows)) == ""
  {
    if history != [] {
      var front, item := history[..|history| - 1], history[|history| - 1];
      HistoryShown(front, shows);
      TokensConcat(RenderHistory(front, shows), RenderItem(item, shows));
      ItemShown(item, shows);
    }
  }

  lemma {:induction false} DeltaShown(delta: seq<Event>)
    requires OnlyDeltas(delta)
    ensures TokensOf(RenderDelta(delta)) == Letters(DeltaText(delta))
    ensures ReasoningOf(RenderDelta(delta)) == DeltaReasoning(delta)
  {
    if delta != [] {
      var front, e := delta[..|delta| - 1], delta[|delta| - 1];
      DeltaShown(front);
      var r := RenderEvent(e, true).value;
      TokensSnoc(RenderDelta(front), r);
      LettersConcat(DeltaText(front), EventText(e));
    }
  }

  /** What a successful replay sends, in tokens. */
  lemma {:induction false} SendsTell(t: Tracked, replay: Op)
    requires DeltaInv(t) && t.v.session.Some? && replay.Replay? && replay.read
    ensures var told, sent := HistoryTokens(t.v.history, replay.shows), ReplaySends(t, replay);
            && TokensOf(sent) == told + (if t.IsRunning() then Letters(DeltaText(t.v.session.value.delta)) else [])
            && ReasoningOf(sent) == (if t.IsRunning() then DeltaReasoning(t.v.session.value.delta) else "")
  {
    var history, delta := RenderHistory(t.v.history, replay.shows), t.v.session.value.delta;
    HistoryShown(t.v.history, replay.shows);
    if t.IsRunning() {
      DeltaShown(delta);
      TokensConcat(history, RenderDelta(delta));
      NothingMore(DeltaReasoning(delta), "");
    } else {
      TokensConcat(history, [Done]);
      OneToken(Done);
    }
  }

  lemma ReplaySent(t: Tracked, replay: Op, x: Subscriber)
    requires replay.Replay? && replay.read && t.Slot().value == Some(x)
    ensures var u := Step(t, replay);
            && u.v.Sent(x) == t.v.Sent(x) + ReplaySends(t, replay)
            && u.Slot() == (if t.IsRunning() then Gated(Some(x), false) else EMPTY)
            && forall y | y != x :: u.v.Sent(y) == t.v.Sent(y)
  {
    ReplayOutcome(t, replay);
    NothingMore(t.v.Sent(x), ReplaySends(t, replay));
  }

  /** In every run: a replay that can read the history tells the subscriber all of it, each prompt with its
      words, each message and each tool that can be shown, in the stored order, and after it the deltas not
      yet stored, text and reasoning, if the session is running; if it is not, it tells Done instead and
      lets the subscriber go.  Nobody else is told anything. */
  lemma ReplayTells(t: Tracked, replay: Op, x: Subscriber)
    requires Reachable(t) && replay.Replay? && replay.read && t.Slot().value == Some(x)
    ensures var u, before := Step(t, replay), t.v.Sent(x);
            var told, delta := HistoryTokens(t.v.history, replay.shows), t.v.session.value.delta;
            && TokensOf(u.v.Sent(x))
               == TokensOf(before) + (told + if t.IsRunning() then Letters(DeltaText(delta)) else [])
            && ReasoningOf(u.v.Sent(x)) == ReasoningOf(before) + (if t.IsRunning() then DeltaReasoning(delta) else "")
            && (t.IsRunning() ==> !Over(u.v.Sent(x)) && u.Slot() == Gated(Some(x), false))
            && (!t.IsRunning() ==>
                 u.v.Sent(x) != [] && u.v.Sent(x)[|u.v.Sent(x)| - 1] == Done && u.Slot() == EMPTY)
            && forall y | y != x :: u.v.Sent(y) == t.v.Sent(y)
  {
    ReachableInv(t);
    StepKeeps(t, replay);
    assert SubscriberInv(Step(t, replay), x);
    ReplaySent(t, replay, x);
    SendsTell(t, replay);
    TokensConcat(t.v.Sent(x), ReplaySends(t, replay));
  }

  lemma NothingMore<T>(a: seq<T>, b: seq<T>)
    ensures b == [] ==> a + b == a
    ensures [] + b == b
  {
  }

  // ---------------------------------------------------------------- what is shown live

  function EventRenders(e: Event, shown: bool): seq<Render> {
    match RenderEvent(e, shown) case Some(r) => [r] case None => []
  }

  lemma EventSent(t: Tracked, op: Op, x: Subscriber)
    requires DeltaInv(t) && op.Add? && Accepts(t.v, op.e, op.stored)
    ensures var u := Step(t, op);
            && u.v.Sent(x) == t.v.Sent(x)
                 + (if t.Slot() == Gated(Some(x), false) then EventRenders(op.e, op.shown) else [])
            && u.IsRunning() == !Ends(op.e)
            && (t.Slot() == Gated(Some(x), false) ==> u.Slot() == if Ends(op.e) then EMPTY else t.Slot())
  {
    var to := AddOutcome(t, op);
    NothingMore(t.v.Sent(x), []);
  }

  /** In every run: an accepted event tells an open subscriber its text, prompt or tool, its reasoning, or
      the end it is, and nothing else; a held one, and everybody else, nothing. */
  lemma EventTells(t: Tracked, op: Op, x: Subscriber)
    requires Reachable(t) && op.Add? && Accepts(t.v, op.e, op.stored)
    ensures var u := Step(t, op);
            if t.Slot() == Gated(Some(x), false) then
              && TokensOf(u.v.Sent(x)) == TokensOf(t.v.Sent(x)) + EventTokens(op.e, op.shown)
              && ReasoningOf(u.v.Sent(x)) == ReasoningOf(t.v.Sent(x)) + EventReasoning(op.e)
              && (match EventEnd(op.e)
                  case Some(end) => u.v.Sent(x) == t.v.Sent(x) + [end] && u.Slot() == EMPTY && !u.IsRunning()
                  case None => u.Slot() == t.Slot() && u.IsRunning() && !Over(u.v.Sent(x)))
            else u.v.Sent(x) == t.v.Sent(x)
  {
    ReachableInv(t);
    StepKeeps(t, op);
    assert SubscriberInv(Step(t, op), x);
    EventSent(t, op, x);
    RenderTells(op.e, op.shown);
    NothingMore(t.v.Sent(x), []);
    TokensConcat(t.v.Sent(x), EventRenders(op.e, op.shown));
  }

  lemma RenderTells(e: Event, shown: bool)
    ensures var renders := EventRenders(e, shown);
            && TokensOf(renders) == EventTokens(e, shown) && ReasoningOf(renders) == EventReasoning(e)
            && (match EventEnd(e) case Some(end) => renders == [end] && Ends(e) case None => !Ends(e))
  {
    if RenderEvent(e, shown).Some? { OneToken(RenderEvent(e, shown).value); }
  }

  /** Stopping a running session tells an open subscriber so, as the end; a held one hears of it only from
      its replay.  A session that is not running cannot be stopped. */
  lemma StopTells(t: Tracked, stop: Op, x: Subscriber)
    requires Reachable(t) && stop.Stop?
    ensures var u := Step(t, stop);
            && (!t.IsRunning() ==> u == t)
            && !u.IsRunning()
            && u.v.Sent(x) == t.v.Sent(x) + (if t.IsRunning() && t.Slot() == Gated(Some(x), false) then [Cancelled] else [])
            && (u.Slot().value == Some(x) ==> u.Slot().hold == t.Slot().hold && (t.IsRunning() ==> t.Slot().hold))
  {
    if t.IsRunning() {
      var s := t.v.session.value;
      var v1 := t.v.(session := Some(Session([], Stopped, s.subscriber.Taken()))).Deliver(s.subscriber.Get(), [Cancelled]);
      assert Step(t, stop).v == CleanUp(v1, stop.cleanup);
      assert Step(t, stop).v.channels == v1.channels;
    }
    NothingMore(t.v.Sent(x), []);
  }

  /** A running session takes every event, any other only a prompt, if what it stores could be stored; a
      prompt and a finished item are then the last of the history, and nothing else is stored. */
  lemma EventStored(t: Tracked, op: Op)
    requires Reachable(t) && op.Add?
    ensures var taken := && t.v.session.Some? && (t.IsRunning() || op.e.UserPrompt?)
                         && (op.e.UserPrompt? || op.e.OutputItem? ==> op.stored);
            var u := Step(t, op);
            && (!taken ==> u == t)
            && (taken && !op.e.Failure? ==>
                 u.v.history == t.v.history + (match op.e
                                               case UserPrompt(words) => [Prompt(words)]
                                               case OutputItem(item) => [item]
                                               case _ => []))
  {
    ReachableInv(t);
    if Accepts(t.v, op.e, op.stored) { var to := AddOutcome(t, op); }
  }

  /** A new subscriber takes the slot, held or open, with nothing told yet, and the run goes on; without a
      session there is none. */
  lemma AttachStarts(t: Tracked, hold: bool)
    requires Reachable(t)
    ensures var u, x := Step(t, Attach(hold)), t.v.next;
            && u.IsRunning() == t.IsRunning() && u.v.history == t.v.history && x !in t.mine
            && (t.v.session.Some? ==>
                 && u.Slot() == Gated(Some(x), hold) && u.v.Sent(x) == [] && x in u.mine
                 && u.v.session.value.delta == t.v.session.value.delta)
            && (forall y | y != x :: u.v.Sent(y) == t.v.Sent(y))
            && (t.v.session.None? ==> u.Slot() == EMPTY && u.mine == t.mine)
  {
    ReachableInv(t);
    assert SubscriberInv(t, t.v.next);
  }

  /** A failed or cancelled turn is cleaned up as storage does it: the rewritten history is the history,
      and a session whose history came out empty is gone; the end of a good turn cleans nothing up. */
  lemma TurnCleanedUp(t: Tracked, op: Op)
    requires Reachable(t) && t.IsRunning() && (op.Stop? || (op.Add? && Ends(op.e)))
    ensures var u := Step(t, op);
            if op.Add? && !op.e.Failure? then u.v.history == t.v.history && u.v.session.Some?
            else match op.cleanup
              case CleanupFails => u.v.history == t.v.history && u.v.session.Some?
              case Rewritten(history) => u.v.history == history && u.v.session.Some?
              case Emptied => u.v.history == [] && u.v.session.None?
    ensures var u := Step(t, op);
            u.v.session.Some? ==>
              u.v.session.value.terminal == if op.Stop? then Stopped else if op.e.ChatDone? then Finished else Errored
  {
    ReachableInv(t);
    if op.Add? { var to := AddOutcome(t, op); }
  }

  /** A session is made once, idle and with nobody in its slot; asking for one that exists changes nothing. */
  lemma CreateStarts(t: Tracked, created: bool)
    ensures var u := Step(t, Create(created));
            && u.v.session.Some? && u.v.channels == t.v.channels
            && (created ==> !u.IsRunning() && u.Slot() == EMPTY && u.v.history == [] && u.v.session.value.delta == [])
            && (!created && t.v.session.Some? ==> u == t)
            && (!created && t.v.session.None? ==> !u.IsRunning() && u.Slot() == EMPTY && u.v.history == t.v.history)
  {
  }

  // ---------------------------------------------------------------- stored is shown

  /** What was shown since the run began, and the reasoning since reasoning was last stored. */
  datatype Screen = Screen(tokens: seq<Token>, thought: string)

  const BLANK := Screen([], "")

  function Watch(o: Screen, t: Tracked, op: Op): Screen {
    if !op.Add? || !Accepts(t.v, op.e, op.stored) then o
    else
      var before := if t.IsRunning() then o else BLANK;
      Screen(before.tokens + EventTokens(op.e, op.shown),
             if op.e.OutputItem? && op.e.item.Reasoning? then "" else before.thought + EventReasoning(op.e))
  }

  function Watched(o: Screen, t: Tracked, ops: seq<Op>): Screen
    decreases |ops|
  {
    if ops == [] then o else Watched(Watch(o, t, ops[0]), Step(t, ops[0]), ops[1..])
  }

  /** The event shows a tool or a prompt just when a replay would, and not while text is pending that has
      yet to be stored. */
  predicate InOrder(t: Tracked, op: Op, shows: Item -> bool) {
    op.Add? && Accepts(t.v, op.e, op.stored) && StoredItem(op.e).Some? && !StoredItem(op.e).value.Message? ==>
      && ItemTokens(StoredItem(op.e).value, shows) == EventTokens(op.e, op.shown)
      && (t.IsRunning() && EventTokens(op.e, op.shown) != [] ==> t.pending == "")
  }

  predicate IsOrderedRun(t: Tracked, ops: seq<Op>, shows: Item -> bool)
    decreases |ops|
  {
    ops == [] || (Allowed(t, ops[0]) && Faithful(t, ops[0]) && InOrder(t, ops[0], shows)
                  && IsOrderedRun(Step(t, ops[0]), ops[1..], shows))
  }

  /** What a replay would tell of the current run. */
  function Replayed(t: Tracked, shows: Item -> bool): seq<Token>
    requires t.mark <= |t.v.history|
  {
    HistoryTokens(t.v.history[t.mark..], shows) + Letters(t.pending)
  }

  predicate ScreenInv(t: Tracked, o: Screen, shows: Item -> bool) {
    t.IsRunning() ==>
      && t.mark <= |t.v.history|
      && Replayed(t, shows) == o.tokens
      && DeltaReasoning(t.v.session.value.delta) == o.thought
  }

  lemma {:induction false} ReasoningSnoc(delta: seq<Event>, e: Event)
    ensures DeltaReasoning(delta + [e]) == DeltaReasoning(delta) + EventReasoning(e)
  {
    assert (delta + [e])[..|delta|] == delta;
  }

  /** Stored reasoning drops exactly the reasoning deltas it replaces, a stored message none of them. */
  lemma {:induction false} WithoutReasoning(delta: seq<Event>, text: bool)
    requires OnlyDeltas(delta)
    ensures DeltaReasoning(Without(delta, text)) == if text then DeltaReasoning(delta) else ""
  {
    if delta != [] {
      var front, e := delta[..|delta| - 1], delta[|delta| - 1];
      WithoutReasoning(front, text);
      if Replaced(e, text) {
        assert Without(delta, text) == Without(front, text);
        NothingMore(DeltaReasoning(front), "");
      } else {
        ReasoningSnoc(Without(front, text), e);
      }
    }
  }

  lemma UpdateReasoning(s: Session, e: Event)
    requires OnlyDeltas(s.delta) && !Ends(e)
    ensures DeltaReasoning(Update(s, e).delta)
         == if e.OutputItem? && e.item.Reasoning? then "" else DeltaReasoning(s.delta) + EventReasoning(e)
  {
    NothingMore(DeltaReasoning(s.delta), "");
    if e.TextDelta? || e.ReasoningDelta? {
      ReasoningSnoc(s.delta, e);
    } else if e.OutputItem? {
      if e.item.Message? { WithoutReasoning(s.delta, true); }
      if e.item.Reasoning? { WithoutReasoning(s.delta, false); }
    }
  }

  lemma HistoryGrows(history: seq<Item>, mark: nat, item: Item, shows: Item -> bool)
    requires mark <= |history|
    ensures HistoryTokens((history + [item])[mark..], shows)
         == HistoryTokens(history[mark..], shows) + ItemTokens(item, shows)
  {
    assert (history + [item])[mark..] == history[mark..] + [item];
    HistorySnoc(history[mark..], item, shows);
  }

  lemma PendingLast(stored: seq<Token>, pending: string, more: seq<Token>)
    requires more == [] || pending == ""
    ensures stored + more + Letters(pending) == stored + Letters(pending) + more
  {
    NothingMore(stored, Letters(pending));
  }

  /** A mark shown behind pending text is told before it, unless there is none. */
  lemma MarkMoves(stored: seq<Token>, pending: string, more: seq<Token>)
    requires |more| <= 1 && forall i | 0 <= i < |more| :: !more[i].Letter?
    ensures stored + more + Letters(pending) == stored + Letters(pending) + more <==> more == [] || pending == ""
  {
    if more == [] || pending == "" {
      PendingLast(stored, pending, more);
    } else {
      assert (stored + more + Letters(pending))[|stored|] == more[0];
      assert (stored + Letters(pending) + more)[|stored|] == Letters(pending)[0] == Letter(pending[0]);
    }
  }

  lemma TokensMove(t: Tracked, u: Tracked, op: Op, shows: Item -> bool, tokens: seq<Token>)
    requires op.Add? && !Ends(op.e) && t.v.session.Some? && (t.IsRunning() || op.e.UserPrompt?)
    requires u.IsRunning() && Remembers(t, u, op.e) && u.v.history == Persisted(t.v, op.e).history
    requires t.IsRunning() ==> t.mark <= |t.v.history| && Replayed(t, shows) == tokens
    requires !t.IsRunning() ==> tokens == []
    requires StoredItem(op.e).Some? ==>
      var item := StoredItem(op.e).value;
      if item.Message? then t.IsRunning() ==> JoinLines(item.parts) == t.pending
      else ItemTokens(item, shows) == EventTokens(op.e, op.shown)
           && (t.IsRunning() && EventTokens(op.e, op.shown) != [] ==> t.pending == "")
    ensures u.mark <= |u.v.history| && Replayed(u, shows) == tokens + EventTokens(op.e, op.shown)
  {
    var e, more := op.e, EventTokens(op.e, op.shown);
    var pending := if t.IsRunning() then t.pending else "";
    var stored := HistoryTokens(t.v.history[u.mark..], shows);
    LettersConcat(pending, EventText(e));
    NothingMore([], Letters(""));
    assert tokens == stored + Letters(pending);
    match StoredItem(e) {
      case None => Assoc(stored, Letters(pending), Letters(EventText(e)));
      case Some(item) =>
        HistoryGrows(t.v.history, u.mark, item, shows);
        NothingMore(pending, "");
        if item.Message? {
          NothingMore(stored + Letters(pending), []);
        } else {
          PendingLast(stored, pending, more);
        }
    }
  }

  lemma AddKeepsScreen(t: Tracked, o: Screen, op: Op, shows: Item -> bool)
    requires DeltaInv(t) && ScreenInv(t, o, shows) && op.Add? && Faithful(t, op) && InOrder(t, op, shows)
    ensures ScreenInv(Step(t, op), Watch(o, t, op), shows)
  {
    if Accepts(t.v, op.e, op.stored) {
      var to := AddOutcome(t, op);
      if !Ends(op.e) {
        TokensMove(t, Step(t, op), op, shows, if t.IsRunning() then o.tokens else []);
        UpdateReasoning(t.v.session.value, op.e);
      }
    }
  }

  lemma OthersKeepScreen(t: Tracked, o: Screen, op: Op, shows: Item -> bool)
    requires ScreenInv(t, o, shows) && !op.Add?
    ensures ScreenInv(Step(t, op), Watch(o, t, op), shows)
  {
    OthersKeepRun(t, op);
  }

  lemma {:induction false} RunKeepsScreen(t: Tracked, o: Screen, ops: seq<Op>, shows: Item -> bool)
    requires Inv(t) && ScreenInv(t, o, shows) && IsOrderedRun(t, ops, shows)
    ensures Inv(After(t, ops)) && ScreenInv(After(t, ops), Watched(o, t, ops), shows) && IsRun(t, ops)
    decreases |ops|
  {
    if ops != [] {
      var op := ops[0];
      StepKeeps(t, op);
      if op.Add? { AddKeepsScreen(t, o, op, shows); } else { OthersKeepScreen(t, o, op, shows); }
      RunKeepsScreen(Step(t, op), Watch(o, t, op), ops[1..], shows);
    }
  }

  /** When tools and prompts are stored with no text pending, what is stored and pending of the current run
      is what was shown of it, prompts, text and tools in the same order, and the reasoning still buffered
      is the reasoning shown since some was last stored. */
  lemma {:induction false} StoredIsShown(ops: seq<Op>, shows: Item -> bool)
    requires IsOrderedRun(START, ops, shows) && After(START, ops).IsRunning()
    ensures var t, o := After(START, ops), Watched(BLANK, START, ops);
            && t.mark <= |t.v.history| && Replayed(t, shows) == o.tokens
            && DeltaReasoning(t.v.session.value.delta) == o.thought
  {
    RunKeepsScreen(START, BLANK, ops, shows);
  }

  /** A tool or prompt keeps its place exactly when no text is pending as it is stored: a replay tells it
      before pending text, which was shown before it. */
  lemma {:induction false} OrderKeptIff(ops: seq<Op>, op: Op, shows: Item -> bool)
    requires IsOrderedRun(START, ops, shows) && After(START, ops).IsRunning()
    requires op.Add? && Accepts(After(START, ops).v, op.e, op.stored)
    requires StoredItem(op.e).Some? && !StoredItem(op.e).value.Message?
    requires ItemTokens(StoredItem(op.e).value, shows) == EventTokens(op.e, op.shown)
    ensures var t, o := After(START, ops), Watched(BLANK, START, ops);
            var u := Step(t, op);
            && u.mark <= |u.v.history|
            && (Replayed(u, shows) == Watch(o, t, op).tokens <==> EventTokens(op.e, op.shown) == [] || t.pending == "")
  {
    var t, o := After(START, ops), Watched(BLANK, START, ops);
    RunKeepsScreen(START, BLANK, ops, shows);
    ItemReplayed(t, op, shows);
    MarkMoves(HistoryTokens(t.v.history[t.mark..], shows), t.pending, EventTokens(op.e, op.shown));
  }

  lemma ItemReplayed(t: Tracked, op: Op, shows: Item -> bool)
    requires Inv(t) && t.IsRunning() && t.mark <= |t.v.history|
    requires op.Add? && Accepts(t.v, op.e, op.stored) && StoredItem(op.e).Some? && !StoredItem(op.e).value.Message?
    ensures var u := Step(t, op);
            && u.mark <= |u.v.history|
            && Replayed(u, shows) == HistoryTokens(t.v.history[t.mark..], shows)
                                     + ItemTokens(StoredItem(op.e).value, shows) + Letters(t.pending)
  {
    var to := AddOutcome(t, op);
    HistoryGrows(t.v.history, t.mark, StoredItem(op.e).value, shows);
    NothingMore(t.pending, "");
  }

  // ---------------------------------------------------------------- following

  /** The tokens and the reasoning that an operation brings. */
  function Brings(t: Tracked, op: Op): (seq<Token>, string) {
    if op.Add? && Accepts(t.v, op.e, op.stored) then (EventTokens(op.e, op.shown), EventReasoning(op.e)) else ([], "")
  }

  function Brought(t: Tracked, ops: seq<Op>): (seq<Token>, string)
    decreases |ops|
  {
    if ops == [] then ([], "")
    else
      var (tokens, reasoning) := Brought(Step(t, ops[0]), ops[1..]);
      (Brings(t, ops[0]).0 + tokens, Brings(t, ops[0]).1 + reasoning)
  }

  /** Who has left the slot does not come back to it, and who is in it was told what the operation brings. */
  lemma StepFollows(t: Tracked, op: Op, x: Subscriber)
    requires Inv(t) && Allowed(t, op) && !op.Attach? && !op.Replay?
    ensures var u := Step(t, op);
            && (u.Slot().value == Some(x) ==> t.Slot() == u.Slot())
            && (u.Slot() == Gated(Some(x), false) ==>
                 && TokensOf(u.v.Sent(x)) == TokensOf(t.v.Sent(x)) + Brings(t, op).0
                 && ReasoningOf(u.v.Sent(x)) == ReasoningOf(t.v.Sent(x)) + Brings(t, op).1)
  {
    assert SubscriberInv(t, x);
    if op.Add? && Accepts(t.v, op.e, op.stored) {
      EventSent(t, op, x);
      var to := AddOutcome(t, op);
      RenderTells(op.e, op.shown);
      TokensConcat(t.v.Sent(x), EventRenders(op.e, op.shown));
    } else {
      NothingMore(TokensOf(t.v.Sent(x)), []);
      NothingMore(ReasoningOf(t.v.Sent(x)), "");
      OthersTellNobody(t, op, x);
    }
  }

  lemma OthersTellNobody(t: Tracked, op: Op, x: Subscriber)
    requires SubscriberInv(t, x) && Allowed(t, op) && !op.Attach? && !op.Replay?
    requires op.Add? ==> !Accepts(t.v, op.e, op.stored)
    ensures var u := Step(t, op);
            u.Slot().value == Some(x) ==> t.Slot() == u.Slot() && (!u.Slot().hold ==> u.v.Sent(x) == t.v.Sent(x))
  {
  }

  /** In every run, with no other subscriber and no replay meanwhile: whoever is in the open slot at the end
      was told exactly what the accepted events brought, in order. */
  lemma {:induction false} AttachedIsTold(t: Tracked, ops: seq<Op>, x: Subscriber)
    requires Inv(t) && IsRun(t, ops) && Undisturbed(ops)
    ensures var u := After(t, ops);
            && (u.Slot().value == Some(x) ==> t.Slot() == u.Slot())
            && (u.Slot() == Gated(Some(x), false) ==>
                 && TokensOf(u.v.Sent(x)) == TokensOf(t.v.Sent(x)) + Brought(t, ops).0
                 && ReasoningOf(u.v.Sent(x)) == ReasoningOf(t.v.Sent(x)) + Brought(t, ops).1)
    decreases |ops|
  {
    if ops == [] {
      NothingMore(TokensOf(t.v.Sent(x)), []);
      NothingMore(ReasoningOf(t.v.Sent(x)), "");
    } else {
      var op, s := ops[0], Step(t, ops[0]);
      StepKeeps(t, op);
      StepFollows(t, op, x);
      AttachedIsTold(s, ops[1..], x);
      Assoc(TokensOf(t.v.Sent(x)), Brings(t, op).0, Brought(s, ops[1..]).0);
      Assoc(ReasoningOf(t.v.Sent(x)), Brings(t, op).1, Brought(s, ops[1..]).1);
    }
  }

  /** Subscribing held, and replaying later, at any moment of such a run: the subscriber is told the history
      stored before the run, then what was shown of the run up to the replay, with the reasoning not yet
      stored, and from then on, while attached, what is shown live. */
  lemma {:induction false} NothingMissed(ops: seq<Op>, x: Subscriber, replay: Op, later: seq<Op>)
    requires replay.Replay? && replay.read && IsOrderedRun(START, ops, replay.shows)
    requires After(START, ops).IsRunning() && After(START, ops).Slot() == Gated(Some(x), true)
    requires IsRun(Step(After(START, ops), replay), later) && Undisturbed(later)
    ensures var t, o := After(START, ops), Watched(BLANK, START, ops);
            var s := Step(t, replay);
            var u := After(s, later);
            u.Slot().value == Some(x) ==>
              && t.mark <= |t.v.history|
              && TokensOf(u.v.Sent(x)) == HistoryTokens(t.v.history[..t.mark], replay.shows) + o.tokens + Brought(s, later).0
              && ReasoningOf(u.v.Sent(x)) == o.thought + Brought(s, later).1
  {
    var t, o := After(START, ops), Watched(BLANK, START, ops);
    RunKeepsScreen(START, BLANK, ops, replay.shows);
    HeldReplay(t, x, replay);
    StepKeeps(t, replay);
    AttachedIsTold(Step(t, replay), later, x);
    OrderedIsFaithful(START, ops, replay.shows);
    FaithfulRunKeeps(START, ops);
    HistorySplit(t.v.history, t.mark, replay.shows);
    Assoc(HistoryTokens(t.v.history[..t.mark], replay.shows), HistoryTokens(t.v.history[t.mark..], replay.shows),
          Letters(t.pending));
  }

  lemma {:induction false} OrderedIsFaithful(t: Tracked, ops: seq<Op>, shows: Item -> bool)
    requires IsOrderedRun(t, ops, shows)
    ensures IsFaithfulRun(t, ops)
    decreases |ops|
  {
    if ops != [] { OrderedIsFaithful(Step(t, ops[0]), ops[1..], shows); }
  }

  lemma HeldReplay(t: Tracked, x: Subscriber, replay: Op)
    requires Inv(t) && t.IsRunning() && t.Slot() == Gated(Some(x), true)
    requires replay.Replay? && replay.read
    ensures var u := Step(t, replay);
            && u.Slot() == Gated(Some(x), false)
            && TokensOf(u.v.Sent(x))
               == HistoryTokens(t.v.history, replay.shows) + Letters(DeltaText(t.v.session.value.delta))
            && ReasoningOf(u.v.Sent(x)) == DeltaReasoning(t.v.session.value.delta)
  {
    assert SubscriberInv(t, x);
    ReplaySent(t, replay, x);
    SendsTell(t, replay);
    NothingMore(ReplaySends(t, replay), ReplaySends(t, replay));
  }

  lemma {:induction false} HistorySplit(history: seq<Item>, mark: nat, shows: Item -> bool)
    requires mark <= |history|
    ensures HistoryTokens(history, shows) == HistoryTokens(history[..mark], shows) + HistoryTokens(history[mark..], shows)
  {
    var front, back := history[..mark], history[mark..];
    assert front + back == history;
    HistoryConcat(front, back, shows);
  }

  /** A tool stored while text is pending is reached: a prompt, one delta, a tool the provider ran. */
  lemma OutOfOrderReachable(prompt: string, text: string, shows: Item -> bool) returns (ops: seq<Op>, op: Op)
    requires text != ""
    ensures IsOrderedRun(START, ops, shows) && After(START, ops).IsRunning()
    ensures op == Add(OutputItem(HostedTool), true, true, CleanupFails) && Accepts(After(START, ops).v, op.e, op.stored)
    ensures var t, o := After(START, ops), Watched(BLANK, START, ops);
            var u := Step(t, op);
            u.mark <= |u.v.history| && Replayed(u, shows) != Watch(o, t, op).tokens
  {
    ops := [];
    ops := OrderedThen(ops, Create(true), shows);
    ops := OrderedThen(ops, Add(UserPrompt(prompt), true, true, CleanupFails), shows);
    ops := OrderedThen(ops, Add(TextDelta(text), true, true, CleanupFails), shows);
    op := Add(OutputItem(HostedTool), true, true, CleanupFails);
    assert "" + text == text;
    OrderKeptIff(ops, op, shows);
  }

  lemma {:induction false} OrderedThen(ops: seq<Op>, op: Op, shows: Item -> bool) returns (more: seq<Op>)
    requires IsOrderedRun(START, ops, shows)
    requires var t := After(START, ops); Allowed(t, op) && Faithful(t, op) && InOrder(t, op, shows)
    ensures IsOrderedRun(START, more, shows) && After(START, more) == Step(After(START, ops), op)
  {
    more := ops + [op];
    OrderedMore(START, ops, op, shows);
  }

  lemma {:induction false} OrderedMore(t: Tracked, ops: seq<Op>, op: Op, shows: Item -> bool)
    requires IsOrderedRun(t, ops, shows)
    requires var u := After(t, ops); Allowed(u, op) && Faithful(u, op) && InOrder(u, op, shows)
    ensures IsOrderedRun(t, ops + [op], shows) && After(t, ops + [op]) == Step(After(t, ops), op)
    decreases |ops|
  {
    if ops == [] {
      assert ops + [op] == [op] && [op][1..] == [];
      assert IsOrderedRun(Step(t, op), [], shows);
    } else {
      OrderedMore(Step(t, ops[0]), ops[1..], op, shows);
      assert (ops + [op])[1..] == ops[1..] + [op];
    }
  }
}
