/** What holds of one session over every run of the actor, with other sessions running beside it. */
module SessionRuns {
  import opened Wrappers
  import opened Sessions

  datatype Op =
    | Add(e: Event, stored: bool, shown: bool, cleanup: Cleanup)
    | Stop(cleanup: Cleanup)
    | Replay(read: bool, shows: Item -> bool)
    | Attach(hold: bool)
    | Create(created: bool)
    | Remove
    | Elsewhere(x: Subscriber, render: Render)

  // ---------------------------------------------------------------- text

  function TextOf(renders: seq<Render>): string {
    if renders == [] then ""
    else TextOf(renders[..|renders| - 1])
         + match renders[|renders| - 1] case TextShown(text) => text case _ => ""
  }

  function ItemText(item: Item): string {
    if item.Message? then JoinLines(item.parts) else ""
  }

  /** The text of the stored messages. */
  function StoredText(history: seq<Item>): string {
    if history == [] then "" else StoredText(history[..|history| - 1]) + ItemText(history[|history| - 1])
  }

  lemma StringAssoc(a: string, b: string, c: string)
    ensures a + b + c == a + (b + c)
  {
  }

  lemma {:induction false} TextConcat(a: seq<Render>, b: seq<Render>)
    ensures TextOf(a + b) == TextOf(a) + TextOf(b)
  {
    if b == [] {
      assert a + b == a;
    } else {
      TextConcat(a, b[..|b| - 1]);
      assert (a + b)[..|a + b| - 1] == a + b[..|b| - 1] && (a + b)[|a + b| - 1] == b[|b| - 1];
      StringAssoc(TextOf(a), TextOf(b[..|b| - 1]), match b[|b| - 1] case TextShown(text) => text case _ => "");
    }
  }

  lemma TextSingle(r: Render)
    ensures TextOf([r]) == if r.TextShown? then r.text else ""
  {
    assert [r][..0] == [];
  }

  lemma {:induction false} HistoryText(history: seq<Item>, shows: Item -> bool)
    ensures TextOf(RenderHistory(history, shows)) == StoredText(history)
  {
    if history != [] {
      var (front, item) := (history[..|history| - 1], history[|history| - 1]);
      HistoryText(front, shows);
      TextConcat(RenderHistory(front, shows), RenderItem(item, shows));
      RenderedItemText(item, shows);
    }
  }

  lemma RenderedItemText(item: Item, shows: Item -> bool)
    ensures TextOf(RenderItem(item, shows)) == ItemText(item)
  {
    var r := RenderItem(item, shows);
    if r != [] { assert r == [r[0]]; TextSingle(r[0]); }
  }

  lemma {:induction false} StoredConcat(a: seq<Item>, b: seq<Item>)
    ensures StoredText(a + b) == StoredText(a) + StoredText(b)
  {
    if b == [] {
      assert a + b == a;
    } else {
      StoredConcat(a, b[..|b| - 1]);
      assert (a + b)[..|a + b| - 1] == a + b[..|b| - 1] && (a + b)[|a + b| - 1] == b[|b| - 1];
    }
  }

  /** The text of the buffered deltas. */
  function DeltaText(delta: seq<Event>): string {
    if delta == [] then "" else DeltaText(delta[..|delta| - 1]) + EventText(delta[|delta| - 1])
  }

  function EventText(e: Event): string {
    if e.TextDelta? then e.text else ""
  }

  lemma {:induction false} DeltaSnoc(delta: seq<Event>, e: Event)
    ensures DeltaText(delta + [e]) == DeltaText(delta) + EventText(e)
  {
    assert (delta + [e])[..|delta|] == delta;
  }

  /** It is what rendering them shows. */
  lemma {:induction false} DeltaRendered(delta: seq<Event>)
    requires OnlyDeltas(delta)
    ensures TextOf(RenderDelta(delta)) == DeltaText(delta)
  {
    if delta != [] {
      var front := delta[..|delta| - 1];
      var r := RenderEvent(delta[|delta| - 1], true).value;
      DeltaRendered(front);
      TextConcat(RenderDelta(front), [r]);
      TextSingle(r);
    }
  }

  lemma {:induction false} WithoutOnly(delta: seq<Event>, text: bool)
    requires OnlyDeltas(delta)
    ensures OnlyDeltas(Without(delta, text))
  {
    if delta != [] { WithoutOnly(delta[..|delta| - 1], text); }
  }

  /** A stored message drops exactly the text deltas it replaces, stored reasoning none of them. */
  lemma {:induction false} WithoutText(delta: seq<Event>, text: bool)
    requires OnlyDeltas(delta)
    ensures DeltaText(Without(delta, text)) == if text then "" else DeltaText(delta)
  {
    if delta != [] {
      var front, e := delta[..|delta| - 1], delta[|delta| - 1];
      WithoutText(front, text);
      if Replaced(e, text) {
        assert Without(delta, text) == Without(front, text);
      } else {
        DeltaSnoc(Without(front, text), e);
      }
    }
  }

  predicate OnlyDeltas(delta: seq<Event>) {
    forall i | 0 <= i < |delta| :: delta[i].TextDelta? || delta[i].ReasoningDelta?
  }

  // ---------------------------------------------------------------- runs

  /** A view together with what an observer of the whole run remembers: the subscribers this session
      created; the length of the history when the session last became running; the text streamed
      since; the text streamed since the last stored message; and a subscriber that follows the run,
      with the text it had before the run's own. */
  datatype Tracked = Tracked(
    v: View,
    mine: set<Subscriber>,
    mark: nat,
    live: string,
    pending: string,
    follower: Option<(Subscriber, string)>)
  {
    predicate IsRunning() {
      v.session.Some? && v.session.value.terminal == Running
    }
    function Slot(): Gated {
      if v.session.Some? then v.session.value.subscriber else EMPTY
    }
  }

  const START := Tracked(View(None, [], map[], 0), {}, 0, "", "", None)

  predicate Allowed(t: Tracked, op: Op) {
    match op
    case Elsewhere(x, _) => x !in t.mine
    case _ => true
  }

  /** Each stored message, its parts joined by newlines, is the text streamed since the one before. */
  predicate Faithful(t: Tracked, op: Op) {
    op.Add? && op.e.OutputItem? && op.e.item.Message? && Accepts(t.v, op.e, op.stored) ==>
      JoinLines(op.e.item.parts) == t.pending
  }

  function ApplyView(v: View, op: Op): View {
    match op
    case Add(e, stored, shown, cleanup) => AfterEvent(v, e, stored, shown, cleanup)
    case Stop(cleanup) => AfterCancel(v, cleanup)
    case Replay(read, shows) => AfterRestore(v, read, shows)
    case Attach(hold) => AfterSubscribe(v, hold)
    case Create(created) => AfterEnsure(v, created)
    case Remove => v.(session := None, history := [])
    case Elsewhere(x, render) =>
      v.Deliver(Some(x), [render]).(next := if x < v.next then v.next else x + 1)
  }

  function Step(t: Tracked, op: Op): Tracked {
    var t' := t.(v := ApplyView(t.v, op));
    match op
    case Add(e, stored, _, _) =>
      if !Accepts(t.v, e, stored) then t'
      else if !t.IsRunning() then
        t'.(mark := |t.v.history|, live := "", pending := "",
            follower := match t.Slot().Get()
                        case Some(x) => Some((x, TextOf(t.v.Sent(x))))
                        case None => None)
      else if e.TextDelta? then t'.(live := t.live + e.text, pending := t.pending + e.text)
      else if e.OutputItem? && e.item.Message? then t'.(pending := "")
      else t'
    case Replay(read, _) =>
      t'.(follower := if read && t.IsRunning() && t.Slot().hold && t.Slot().value.Some?
                      then Some((t.Slot().value.value, StoredText(t.v.history[..if t.mark <= |t.v.history| then t.mark else 0])))
                      else None)
    case Attach(_) => if t.v.session.Some? then t'.(mine := t.mine + {t.v.next}, follower := None) else t'
    case _ => t'
  }

  predicate IsRun(t: Tracked, ops: seq<Op>)
    decreases |ops|
  {
    ops == [] || (Allowed(t, ops[0]) && IsRun(Step(t, ops[0]), ops[1..]))
  }

  /** A run in which every stored message repeats what was streamed. */
  predicate IsFaithfulRun(t: Tracked, ops: seq<Op>)
    decreases |ops|
  {
    ops == [] || (Allowed(t, ops[0]) && Faithful(t, ops[0]) && IsFaithfulRun(Step(t, ops[0]), ops[1..]))
  }

  function After(t: Tracked, ops: seq<Op>): Tracked
    decreases |ops|
  {
    if ops == [] then t else After(Step(t, ops[0]), ops[1..])
  }

  ghost predicate Reachable(t: Tracked) {
    exists ops :: IsRun(START, ops) && After(START, ops) == t
  }

  ghost predicate FaithfullyReachable(t: Tracked) {
    exists ops :: IsFaithfulRun(START, ops) && After(START, ops) == t
  }

  // ---------------------------------------------------------------- what every operation keeps

  predicate Over(sent: seq<Render>) {
    sent != [] && sent[|sent| - 1].Final()
  }

  predicate OneFinal(sent: seq<Render>) {
    forall i | 0 <= i < |sent| - 1 :: !sent[i].Final()
  }

  /** Deltas are buffered only while running. */
  predicate DeltaInv(t: Tracked) {
    t.v.session.Some? ==>
      && OnlyDeltas(t.v.session.value.delta)
      && (t.v.session.value.delta != [] ==> t.IsRunning())
  }

  /** Each subscriber this session created hears the end at most once, and not while in the slot; a
      held one has heard nothing. */
  predicate SubscriberInv(t: Tracked, x: Subscriber) {
    && (x in t.mine ==> x < t.v.next && OneFinal(t.v.Sent(x)))
    && (x in t.v.channels ==> x < t.v.next)
    && (t.Slot().value == Some(x) ==>
          x in t.mine && !Over(t.v.Sent(x)) && (t.Slot().hold ==> t.v.Sent(x) == []))
  }

  /** While running, stored text since the run began and buffered deltas make up the streamed text. */
  predicate TextInv(t: Tracked) {
    t.IsRunning() ==>
      && t.mark <= |t.v.history|
      && DeltaText(t.v.session.value.delta) == t.pending
      && StoredText(t.v.history[t.mark..]) + t.pending == t.live
  }

  /** While running, the follower has received its earlier text and then exactly the streamed text. */
  predicate FollowerInv(t: Tracked) {
    t.IsRunning() && t.follower.Some? && t.Slot().value == Some(t.follower.value.0) ==>
      !t.Slot().hold && TextOf(t.v.Sent(t.follower.value.0)) == t.follower.value.1 + t.live
  }

  /** What holds on every run, and what faithful runs add. */
  ghost predicate Inv(t: Tracked) {
    DeltaInv(t) && forall x :: SubscriberInv(t, x)
  }

  ghost predicate FaithfulInv(t: Tracked) {
    Inv(t) && TextInv(t) && FollowerInv(t)
  }

  lemma {:induction false} RenderHistoryOpen(history: seq<Item>, shows: Item -> bool)
    ensures forall i | 0 <= i < |RenderHistory(history, shows)| :: !RenderHistory(history, shows)[i].Final()
  {
    if history != [] { RenderHistoryOpen(history[..|history| - 1], shows); }
  }

  lemma {:induction false} RenderDeltaOpen(delta: seq<Event>)
    requires OnlyDeltas(delta)
    ensures forall i | 0 <= i < |RenderDelta(delta)| :: !RenderDelta(delta)[i].Final()
  {
    if delta != [] { RenderDeltaOpen(delta[..|delta| - 1]); }
  }

  /** What an event leaves of the streamed text. */
  function LeftText(text: string, e: Event): string {
    if Ends(e) || (e.OutputItem? && e.item.Message?) then ""
    else if e.TextDelta? then text + e.text
    else text
  }

  lemma ClearedDelta(text: string, e: Event)
    requires Ends(e)
    ensures DeltaText([]) == LeftText(text, e)
  {
  }

  /** Only deltas are buffered, and none once the session has ended. */
  lemma UpdateOnly(s: Session, e: Event)
    requires OnlyDeltas(s.delta)
    ensures OnlyDeltas(Update(s, e).delta) && (Ends(e) ==> Update(s, e).delta == [])
  {
    if e.OutputItem? { WithoutOnly(s.delta, e.item.Message?); }
  }

  lemma UpdateText(s: Session, e: Event)
    requires OnlyDeltas(s.delta)
    ensures DeltaText(Update(s, e).delta) == LeftText(DeltaText(s.delta), e)
  {
    if Ends(e) {
      ClearedDelta(DeltaText(s.delta), e);
    } else if e.TextDelta? || e.ReasoningDelta? {
      StreamedText(s, e);
    } else if e.OutputItem? {
      FinishedText(s, e);
    }
  }

  lemma StreamedText(s: Session, e: Event)
    requires e.TextDelta? || e.ReasoningDelta?
    ensures DeltaText(Update(s, e).delta) == LeftText(DeltaText(s.delta), e)
  {
    DeltaSnoc(s.delta, e);
  }

  lemma FinishedText(s: Session, e: Event)
    requires OnlyDeltas(s.delta) && e.OutputItem?
    ensures DeltaText(Update(s, e).delta) == LeftText(DeltaText(s.delta), e)
  {
    match e.item {
      case Message(_) => WithoutText(s.delta, true);
      case Reasoning => WithoutText(s.delta, false);
      case _ =>
    }
  }

  /** Nothing but the end of a turn and a new prompt changes the state. */
  lemma UpdateState(s: Session, e: Event)
    ensures var u := Update(s, e);
            && u.subscriber == s.subscriber
            && (Ends(e) ==> u.terminal == Finished || u.terminal == Errored)
            && (!Ends(e) ==> u.terminal == (if e.UserPrompt? then Running else s.terminal))
  {
  }

  /** What an accepted event sends, and to whom. */
  function Recipient(v: View, e: Event, shown: bool): Option<Subscriber>
    requires v.session.Some?
  {
    if RenderEvent(e, shown).Some? then v.session.value.subscriber.Get() else None
  }

  predicate Ends(e: Event) {
    e.ChatDone? || e.ChatError? || e.Failure?
  }

  /** What an accepted event does: one render to an open slot, and the updated session. */
  lemma EventOutcome(v: View, e: Event, stored: bool, shown: bool, cleanup: Cleanup)
    requires Accepts(v, e, stored)
    ensures var v' := AfterEvent(v, e, stored, shown, cleanup);
            var u := Update(v.session.value, e);
            var to := Recipient(v, e, shown);
            && v'.next == v.next
            && v'.channels == (if to.None? then v.channels
                               else v.channels[to.value := v.Sent(to.value) + [RenderEvent(e, shown).value]])
            && (v'.session.Some? ==>
                  v'.session.value == if to.Some? && (u.terminal == Finished || u.terminal == Errored)
                                      then u.(subscriber := EMPTY) else u)
            && (!e.Failure? ==> v'.session.Some? && v'.history == Persisted(v, e).history)
  {
    var u := Update(v.session.value, e);
    assert u.subscriber == v.session.value.subscriber;
    var v1 := Published(Persisted(v, e), u, RenderEvent(e, shown));
    assert Persisted(v, e).channels == v.channels;
  }

  lemma AddKeepsDelta(t: Tracked, op: Op)
    requires DeltaInv(t) && op.Add?
    ensures DeltaInv(Step(t, op))
  {
    if Accepts(t.v, op.e, op.stored) {
      UpdateOnly(t.v.session.value, op.e);
      EventOutcome(t.v, op.e, op.stored, op.shown, op.cleanup);
    }
  }

  /** Sending one render to the open slot, and emptying it if that was the end. */
  lemma SendKeepsSubscriber(t: Tracked, t': Tracked, to: Option<Subscriber>, r: Render, x: Subscriber)
    requires SubscriberInv(t, x)
    requires to.Some? ==> to == t.Slot().Get()
    requires t'.mine == t.mine && t'.v.next == t.v.next
    requires t'.v.channels ==
      if to.None? then t.v.channels else t.v.channels[to.value := t.v.Sent(to.value) + [r]]
    requires t'.Slot() == EMPTY || (t'.Slot() == t.Slot() && (to.Some? ==> !r.Final()))
    ensures SubscriberInv(t', x)
  {
    if to == Some(x) {
      assert t'.v.Sent(x) == t.v.Sent(x) + [r];
    } else {
      assert t'.v.Sent(x) == t.v.Sent(x);
    }
  }

  lemma AddKeepsSubscriber(t: Tracked, op: Op, x: Subscriber)
    requires DeltaInv(t) && SubscriberInv(t, x) && op.Add?
    ensures SubscriberInv(Step(t, op), x)
  {
    if Accepts(t.v, op.e, op.stored) {
      var to := AddOutcome(t, op);
      SendKeepsSubscriber(t, Step(t, op), to, if to.Some? then RenderEvent(op.e, op.shown).value else Done, x);
    }
  }

  /** An accepted event, in terms of what the observer remembers. */
  lemma AddOutcome(t: Tracked, op: Op) returns (to: Option<Subscriber>)
    requires DeltaInv(t) && op.Add? && Accepts(t.v, op.e, op.stored)
    ensures var u := Step(t, op);
            && to == Recipient(t.v, op.e, op.shown)
            && u.mine == t.mine && u.v.next == t.v.next
            && u.v.channels == (if to.None? then t.v.channels
                                else t.v.channels[to.value := t.v.Sent(to.value) + [RenderEvent(op.e, op.shown).value]])
            && (u.Slot() == EMPTY || u.Slot() == t.Slot())
            && (Ends(op.e) ==> !u.IsRunning() && (to.Some? ==> u.Slot() == EMPTY))
            && (!Ends(op.e) ==> u.IsRunning() && u.v.history == Persisted(t.v, op.e).history && u.Slot() == t.Slot()
                                && u.v.session.value.delta == Update(t.v.session.value, op.e).delta)
            && Remembers(t, u, op.e)
  {
    to := Recipient(t.v, op.e, op.shown);
    EventOutcome(t.v, op.e, op.stored, op.shown, op.cleanup);
    UpdateState(t.v.session.value, op.e);
  }

  predicate Remembers(t: Tracked, u: Tracked, e: Event)
  {
    if !t.IsRunning() then
      u.mark == |t.v.history| && u.live == "" && u.pending == ""
      && u.follower == match t.Slot().Get() case Some(x) => Some((x, TextOf(t.v.Sent(x)))) case None => None
    else
      u.mark == t.mark && u.live == t.live + EventText(e) && u.follower == t.follower
      && u.pending == if e.OutputItem? && e.item.Message? then "" else t.pending + EventText(e)
  }

  lemma StopKeeps(t: Tracked, op: Op, x: Subscriber)
    requires SubscriberInv(t, x) && op.Stop?
    ensures SubscriberInv(Step(t, op), x)
  {
    if t.IsRunning() {
      var s := t.v.session.value;
      var v1 := t.v.(session := Some(Session([], Stopped, s.subscriber.Taken()))).Deliver(s.subscriber.Get(), [Cancelled]);
      assert Step(t, op).v == CleanUp(v1, op.cleanup);
      assert Step(t, op).v.channels == v1.channels;
    }
  }

  lemma AttachKeeps(t: Tracked, op: Op, x: Subscriber)
    requires SubscriberInv(t, x) && SubscriberInv(t, t.v.next)
    requires op.Attach? || op.Create? || op.Remove? || (op.Elsewhere? && Allowed(t, op))
    ensures SubscriberInv(Step(t, op), x)
  {
  }

  predicate StaysOpen(sent: seq<Render>) {
    forall i | 0 <= i < |sent| :: !sent[i].Final()
  }

  /** What a successful replay sends. */
  function ReplaySends(t: Tracked, op: Op): seq<Render>
    requires op.Replay? && t.v.session.Some?
  {
    if !op.read then []
    else RenderHistory(t.v.history, op.shows)
         + if t.IsRunning() then RenderDelta(t.v.session.value.delta) else [Done]
  }

  lemma ReplayOutcome(t: Tracked, op: Op)
    requires op.Replay? && t.v.session.Some?
    ensures var u, sent := Step(t, op), ReplaySends(t, op);
            && u.v.next == t.v.next && u.mine == t.mine
            && (t.Slot().value.None? ==> u.v.channels == t.v.channels)
            && (t.Slot().value.Some? ==>
                  var x := t.Slot().value.value;
                  u.v.channels == if sent == [] then t.v.channels else t.v.channels[x := t.v.Sent(x) + sent])
            && u.Slot() == if op.read && !t.IsRunning() then EMPTY else Gated(t.Slot().value, false)
  {
  }

  lemma EndsOnce(a: seq<Render>, b: seq<Render>)
    requires OneFinal(a) && !Over(a) && (b != [] ==> StaysOpen(b[..|b| - 1]))
    ensures OneFinal(a + b)
    ensures StaysOpen(b) ==> !Over(a + b)
  {
    assert b == [] ==> a + b == a;
    if b != [] {
      forall i | 0 <= i < |a + b| - 1 ensures !(a + b)[i].Final() {
        if i >= |a| { assert (a + b)[i] == b[..|b| - 1][i - |a|]; }
      }
    }
  }

  lemma ReplayKeepsSubscriber(t: Tracked, op: Op, x: Subscriber)
    requires DeltaInv(t) && SubscriberInv(t, x) && op.Replay?
    ensures SubscriberInv(Step(t, op), x)
  {
    if t.v.session.Some? {
      ReplayOutcome(t, op);
      RenderHistoryOpen(t.v.history, op.shows);
      RenderDeltaOpen(t.v.session.value.delta);
      if t.Slot().value == Some(x) { EndsOnce(t.v.Sent(x), ReplaySends(t, op)); }
    }
  }

  // ---------------------------------------------------------------- text

  lemma StoredGrows(history: seq<Item>, mark: nat, item: Item)
    requires mark <= |history|
    ensures StoredText((history + [item])[mark..]) == StoredText(history[mark..]) + ItemText(item)
  {
    assert (history + [item])[mark..] == history[mark..] + [item];
    assert (history[mark..] + [item])[..|history| - mark] == history[mark..];
  }

  lemma TextMoves(t: Tracked, u: Tracked, e: Event)
    requires DeltaInv(t) && TextInv(t) && t.v.session.Some? && (t.IsRunning() || e.UserPrompt?)
    requires !Ends(e) && u.IsRunning() && Remembers(t, u, e)
    requires u.v.history == Persisted(t.v, e).history
    requires u.v.session.value.delta == Update(t.v.session.value, e).delta
    requires e.OutputItem? && e.item.Message? ==> JoinLines(e.item.parts) == t.pending
    ensures TextInv(u)
  {
    assert t.IsRunning() || t.v.session.value.delta == [];
    UpdateText(t.v.session.value, e);
    var mark := if t.IsRunning() then t.mark else |t.v.history|;
    var before := StoredText(t.v.history[mark..]);
    HistoryMoves(t.v, e, mark);
    if StoredItem(e).Some? {
      StoredMoves(before, t.pending, ItemText(StoredItem(e).value));
    } else {
      StringAssoc(before, t.pending, EventText(e));
    }
  }

  /** What storing the event's item, if it has one, does to the text stored since `mark`. */
  lemma HistoryMoves(v: View, e: Event, mark: nat)
    requires mark <= |v.history|
    ensures StoredText(Persisted(v, e).history[mark..])
         == StoredText(v.history[mark..]) + if StoredItem(e).Some? then ItemText(StoredItem(e).value) else ""
  {
    if StoredItem(e).Some? {
      StoredGrows(v.history, mark, StoredItem(e).value);
    } else {
      EmptyEnds(StoredText(v.history[mark..]));
    }
  }

  lemma StoredMoves(before: string, pending: string, text: string)
    ensures before + "" == before && before + text + "" == before + text
    ensures before + "" + pending == before + pending
  {
  }

  lemma EmptyEnds(a: string)
    ensures a + "" == a
  {
  }

  lemma AddKeepsText(t: Tracked, op: Op)
    requires DeltaInv(t) && TextInv(t) && op.Add? && Faithful(t, op)
    ensures TextInv(Step(t, op))
  {
    if Accepts(t.v, op.e, op.stored) {
      var to := AddOutcome(t, op);
      if !Ends(op.e) { TextMoves(t, Step(t, op), op.e); }
    }
  }

  lemma OthersKeepRun(t: Tracked, op: Op)
    requires !op.Add?
    ensures var u := Step(t, op);
            u.IsRunning() ==>
              && t.IsRunning() && u.mark == t.mark && u.live == t.live && u.pending == t.pending
              && u.v.history == t.v.history && u.v.session.value.delta == t.v.session.value.delta
  {
  }

  lemma OthersKeepText(t: Tracked, op: Op)
    requires TextInv(t) && !op.Add?
    ensures TextInv(Step(t, op))
  {
    OthersKeepRun(t, op);
  }

  lemma FollowerMoves(t: Tracked, u: Tracked, e: Event, shown: bool)
    requires FollowerInv(t) && t.v.session.Some? && (t.IsRunning() || e.UserPrompt?)
    requires !Ends(e) && u.IsRunning() && Remembers(t, u, e) && u.Slot() == t.Slot()
    requires var to := Recipient(t.v, e, shown);
             u.v.channels == if to.None? then t.v.channels
                             else t.v.channels[to.value := t.v.Sent(to.value) + [RenderEvent(e, shown).value]]
    ensures FollowerInv(u)
  {
    var to := Recipient(t.v, e, shown);
    if to.Some? {
      TextConcat(t.v.Sent(to.value), [RenderEvent(e, shown).value]);
      TextSingle(RenderEvent(e, shown).value);
    }
  }

  lemma AddKeepsFollower(t: Tracked, op: Op)
    requires DeltaInv(t) && FollowerInv(t) && op.Add?
    ensures FollowerInv(Step(t, op))
  {
    if Accepts(t.v, op.e, op.stored) {
      var to := AddOutcome(t, op);
      if !Ends(op.e) { FollowerMoves(t, Step(t, op), op.e, op.shown); }
    }
  }

  lemma OthersKeepFollower(t: Tracked, op: Op)
    requires FollowerInv(t) && !op.Add? && !op.Replay? && Allowed(t, op)
    requires t.Slot().value.Some? ==> SubscriberInv(t, t.Slot().value.value)
    ensures FollowerInv(Step(t, op))
  {
  }

  /** A held subscriber that asks for the replay has then received all stored text and the whole run. */
  lemma ReplayMakesFollower(t: Tracked, op: Op)
    requires DeltaInv(t) && TextInv(t) && op.Replay?
    requires t.Slot().value.Some? ==> SubscriberInv(t, t.Slot().value.value)
    ensures FollowerInv(Step(t, op))
  {
    if op.read && t.IsRunning() && t.Slot().hold && t.Slot().value.Some? {
      var x, s, h := t.Slot().value.value, t.v.session.value, t.v.history;
      var sent := RenderHistory(h, op.shows) + RenderDelta(s.delta);
      assert Step(t, op).v.Sent(x) == [] + sent;
      assert [] + sent == sent;
      assert h[..t.mark] + h[t.mark..] == h;
      ReplayText(h[..t.mark], h[t.mark..], s.delta, op.shows);
    }
  }

  lemma {:induction false} ReplayText(front: seq<Item>, back: seq<Item>, delta: seq<Event>, shows: Item -> bool)
    requires OnlyDeltas(delta)
    ensures TextOf(RenderHistory(front + back, shows) + RenderDelta(delta))
         == StoredText(front) + (StoredText(back) + DeltaText(delta))
  {
    TextConcat(RenderHistory(front + back, shows), RenderDelta(delta));
    HistoryText(front + back, shows);
    DeltaRendered(delta);
    StoredConcat(front, back);
    StringAssoc(StoredText(front), StoredText(back), DeltaText(delta));
  }

  // ---------------------------------------------------------------- runs

  /** Every operation, whatever messages are stored, keeps the invariant. */
  lemma StepKeeps(t: Tracked, op: Op)
    requires Inv(t) && Allowed(t, op)
    ensures Inv(Step(t, op))
  {
    forall x ensures SubscriberInv(Step(t, op), x) {
      assert SubscriberInv(t, x) && SubscriberInv(t, t.v.next);
      match op {
        case Add(_, _, _, _) => AddKeepsSubscriber(t, op, x);
        case Stop(_) => StopKeeps(t, op, x);
        case Replay(_, _) => ReplayKeepsSubscriber(t, op, x);
        case _ => AttachKeeps(t, op, x);
      }
    }
    if op.Add? { AddKeepsDelta(t, op); } else { OthersKeepDelta(t, op); }
  }

  /** Anything but a replay keeps the follower's text right, whatever messages are stored. */
  lemma FollowerKept(t: Tracked, op: Op)
    requires Inv(t) && FollowerInv(t) && Allowed(t, op) && !op.Replay?
    ensures FollowerInv(Step(t, op))
  {
    if t.Slot().value.Some? { assert SubscriberInv(t, t.Slot().value.value); }
    if op.Add? { AddKeepsFollower(t, op); } else { OthersKeepFollower(t, op); }
  }

  lemma FaithfulStepKeeps(t: Tracked, op: Op)
    requires FaithfulInv(t) && Allowed(t, op) && Faithful(t, op)
    ensures FaithfulInv(Step(t, op))
  {
    StepKeeps(t, op);
    if op.Add? { AddKeepsText(t, op); } else { OthersKeepText(t, op); }
    if op.Replay? {
      if t.Slot().value.Some? { assert SubscriberInv(t, t.Slot().value.value); }
      ReplayMakesFollower(t, op);
    } else {
      FollowerKept(t, op);
    }
  }

  lemma OthersKeepDelta(t: Tracked, op: Op)
    requires DeltaInv(t) && !op.Add?
    ensures DeltaInv(Step(t, op))
  {
  }

  lemma {:induction false} RunKeeps(t: Tracked, ops: seq<Op>)
    requires Inv(t) && IsRun(t, ops)
    ensures Inv(After(t, ops))
    decreases |ops|
  {
    if ops != [] {
      StepKeeps(t, ops[0]);
      RunKeeps(Step(t, ops[0]), ops[1..]);
    }
  }

  lemma {:induction false} FaithfulRunKeeps(t: Tracked, ops: seq<Op>)
    requires FaithfulInv(t) && IsFaithfulRun(t, ops)
    ensures FaithfulInv(After(t, ops))
    decreases |ops|
  {
    if ops != [] {
      FaithfulStepKeeps(t, ops[0]);
      FaithfulRunKeeps(Step(t, ops[0]), ops[1..]);
    }
  }

  lemma ReachableInv(t: Tracked)
    requires Reachable(t)
    ensures Inv(t)
  {
    var ops :| IsRun(START, ops) && After(START, ops) == t;
    RunKeeps(START, ops);
  }

  lemma FaithfullyReachableInv(t: Tracked)
    requires FaithfullyReachable(t)
    ensures FaithfulInv(t)
  {
    var ops :| IsFaithfulRun(START, ops) && After(START, ops) == t;
    FaithfulRunKeeps(START, ops);
  }

  // ---------------------------------------------------------------- main results

  /** Every subscriber, held or open, is told the end at most once and nothing after it. */
  lemma AtMostOneEnd(t: Tracked, x: Subscriber)
    requires Reachable(t) && x in t.mine
    ensures OneFinal(t.v.Sent(x))
    ensures Over(t.v.Sent(x)) ==> t.Slot().value != Some(x)
  {
    ReachableInv(t);
    assert SubscriberInv(t, x);
  }

  /** A session with buffered deltas is running. */
  lemma BufferedMeansRunning(t: Tracked)
    requires Reachable(t) && t.v.session.Some? && t.v.session.value.delta != []
    ensures t.IsRunning()
  {
    ReachableInv(t);
  }

  /** What a replay would send for the current run is the text streamed since the run began: nothing
      missing, nothing twice. */
  lemma ReplayIsLive(t: Tracked, shows: Item -> bool)
    requires FaithfullyReachable(t) && t.IsRunning()
    ensures t.mark <= |t.v.history|
    ensures TextOf(RenderHistory(t.v.history[t.mark..], shows) + RenderDelta(t.v.session.value.delta)) == t.live
  {
    FaithfullyReachableInv(t);
    HistoryText(t.v.history[t.mark..], shows);
    DeltaRendered(t.v.session.value.delta);
    TextConcat(RenderHistory(t.v.history[t.mark..], shows), RenderDelta(t.v.session.value.delta));
  }

  predicate Undisturbed(ops: seq<Op>) {
    forall i | 0 <= i < |ops| :: !ops[i].Attach? && !ops[i].Replay?
  }

  /** While its run lasts, the follower stays the follower and has exactly the streamed text. */
  lemma {:induction false} FollowerStays(t: Tracked, ops: seq<Op>, x: Subscriber)
    requires Inv(t) && FollowerInv(t) && IsRun(t, ops) && Undisturbed(ops)
    requires t.Slot().value == Some(x) ==> t.IsRunning() && t.follower.Some? && t.follower.value.0 == x
    requires x < t.v.next
    ensures var u := After(t, ops);
            FollowerInv(u) &&
            (u.Slot().value == Some(x) ==>
               t.Slot().value == Some(x) && u.IsRunning() && u.follower == t.follower && u.mark == t.mark)
    decreases |ops|
  {
    if ops != [] {
      var op := ops[0];
      StepKeeps(t, op);
      FollowerKept(t, op);
      FollowerStep(t, op, x);
      FollowerStays(Step(t, op), ops[1..], x);
    }
  }

  lemma FollowerStep(t: Tracked, op: Op, x: Subscriber)
    requires DeltaInv(t) && FollowerInv(t) && !op.Attach? && !op.Replay?
    requires t.Slot().value == Some(x) ==> t.IsRunning() && t.follower.Some? && t.follower.value.0 == x
    ensures var u := Step(t, op);
            && u.v.next >= t.v.next
            && (u.Slot().value == Some(x) ==>
                  t.Slot().value == Some(x) && u.IsRunning() && u.follower == t.follower && u.mark == t.mark)
  {
    if op.Add? && Accepts(t.v, op.e, op.stored) {
      var to := AddOutcome(t, op);
    }
  }

  /** Subscribing held, at any moment of any run whose messages repeat what was streamed, and replaying
      later, whatever happens in between and afterwards: as long as the subscriber is attached it has
      received the text stored before the run and then exactly the text streamed since the run began. */
  lemma {:induction false} NoGapNoDuplicate(t: Tracked, x: Subscriber, replay: Op, later: seq<Op>)
    requires FaithfullyReachable(t) && t.IsRunning() && t.Slot() == Gated(Some(x), true)
    requires replay.Replay? && replay.read
    requires IsRun(Step(t, replay), later) && Undisturbed(later)
    ensures var u := After(Step(t, replay), later);
            u.Slot().value == Some(x) ==>
              u.IsRunning() && t.mark <= |t.v.history|
              && TextOf(u.v.Sent(x)) == StoredText(t.v.history[..t.mark]) + u.live
  {
    FaithfullyReachableInv(t);
    assert SubscriberInv(t, x);
    FaithfulStepKeeps(t, replay);
    FollowerStays(Step(t, replay), later, x);
  }

  /** Right after the replay the held subscriber is open and has everything so far, just when the history
      could be read or there was nothing to tell: a failed read opens the slot without a replay. */
  lemma CaughtUpIff(t: Tracked, x: Subscriber, replay: Op)
    requires FaithfullyReachable(t) && t.IsRunning() && t.Slot() == Gated(Some(x), true) && replay.Replay?
    ensures var u := Step(t, replay);
            && u.Slot() == Gated(Some(x), false) && t.mark <= |t.v.history|
            && (TextOf(u.v.Sent(x)) == StoredText(t.v.history[..t.mark]) + t.live
                <==> replay.read || StoredText(t.v.history[..t.mark]) + t.live == "")
  {
    FaithfullyReachableInv(t);
    assert SubscriberInv(t, x);
    if replay.read {
      NoGapNoDuplicate(t, x, replay, []);
    }
  }

  /** A replay, to a held slot or an open one, adds all the text so far to what the subscriber has; so one
      that had been told something already, as after a failed read and later deltas, is told it again. */
  lemma ReplayAdds(t: Tracked, x: Subscriber, replay: Op)
    requires FaithfullyReachable(t) && t.IsRunning() && t.Slot().value == Some(x) && replay.Replay? && replay.read
    ensures var u := Step(t, replay);
            && u.Slot() == Gated(Some(x), false) && t.mark <= |t.v.history|
            && TextOf(u.v.Sent(x)) == TextOf(t.v.Sent(x)) + (StoredText(t.v.history[..t.mark]) + t.live)
            && (TextOf(u.v.Sent(x)) == StoredText(t.v.history[..t.mark]) + t.live <==> TextOf(t.v.Sent(x)) == "")
  {
    FaithfullyReachableInv(t);
    ReplayOutcome(t, replay);
    SendsAllText(t, replay);
    TextConcat(t.v.Sent(x), ReplaySends(t, replay));
    OnlyEmptyAdds(TextOf(t.v.Sent(x)), StoredText(t.v.history[..t.mark]) + t.live);
    if ReplaySends(t, replay) == [] {
      EmptyEnds(TextOf(t.v.Sent(x)));
    }
  }

  lemma SendsAllText(t: Tracked, replay: Op)
    requires DeltaInv(t) && TextInv(t) && t.IsRunning() && replay.Replay? && replay.read
    ensures TextOf(ReplaySends(t, replay)) == StoredText(t.v.history[..t.mark]) + t.live
  {
    var front, back := t.v.history[..t.mark], t.v.history[t.mark..];
    assert front + back == t.v.history;
    ReplayText(front, back, t.v.session.value.delta, replay.shows);
  }

  lemma OnlyEmptyAdds(a: string, b: string)
    ensures a + b == b <==> a == ""
  {
    if a + b == b {
      assert |a + b| == |a| + |b|;
    }
  }

  /** Such a failure is reached: a prompt, one delta, a held subscriber, and a replay whose read fails. */
  lemma FailedReplayMisses(prompt: string, text: string, shows: Item -> bool) returns (t: Tracked, x: Subscriber)
    requires text != ""
    ensures FaithfullyReachable(t) && t.IsRunning() && t.Slot() == Gated(Some(x), true)
    ensures var u := Step(t, Replay(false, shows));
            && u.Slot() == Gated(Some(x), false) && t.mark <= |t.v.history|
            && TextOf(u.v.Sent(x)) != StoredText(t.v.history[..t.mark]) + t.live
  {
    t := Then(START, Create(true));
    t := Then(t, Add(UserPrompt(prompt), true, true, CleanupFails));
    t := Then(t, Add(TextDelta(text), true, true, CleanupFails));
    t := Then(t, Attach(true));
    x := t.Slot().value.value;
    assert t.live == text by { assert "" + text == text; }
    CaughtUpIff(t, x, Replay(false, shows));
  }

  lemma Then(t: Tracked, op: Op) returns (u: Tracked)
    requires (t == START || FaithfullyReachable(t)) && Allowed(t, op) && Faithful(t, op)
    ensures u == Step(t, op) && FaithfullyReachable(u)
  {
    u := Step(t, op);
    var ops := [];
    if t != START {
      ops :| IsFaithfulRun(START, ops) && After(START, ops) == t;
    }
    OneMore(START, ops, op);
  }

  lemma {:induction false} OneMore(t: Tracked, ops: seq<Op>, op: Op)
    requires IsFaithfulRun(t, ops) && Allowed(After(t, ops), op) && Faithful(After(t, ops), op)
    ensures IsFaithfulRun(t, ops + [op]) && After(t, ops + [op]) == Step(After(t, ops), op)
    decreases |ops|
  {
    if ops == [] {
      assert ops + [op] == [op] && [op][1..] == [];
      assert IsFaithfulRun(Step(t, op), []);
    } else {
      OneMore(Step(t, ops[0]), ops[1..], op);
      assert (ops + [op])[1..] == ops[1..] + [op];
    }
  }

  /** A subscriber already open when a run begins receives exactly the streamed text of that run, whatever
      messages are stored. */
  lemma {:induction false} AttachedThroughout(t: Tracked, x: Subscriber, prompt: Op, later: seq<Op>)
    requires Reachable(t) && !t.IsRunning() && t.Slot() == Gated(Some(x), false)
    requires prompt.Add? && prompt.e.UserPrompt? && Accepts(t.v, prompt.e, prompt.stored)
    requires IsRun(Step(t, prompt), later) && Undisturbed(later)
    ensures var u := After(Step(t, prompt), later);
            u.Slot().value == Some(x) ==>
              u.IsRunning() && TextOf(u.v.Sent(x)) == TextOf(t.v.Sent(x)) + u.live
  {
    ReachableInv(t);
    assert SubscriberInv(t, x);
    var to := AddOutcome(t, prompt);
    StepKeeps(t, prompt);
    FollowerKept(t, prompt);
    FollowerStays(Step(t, prompt), later, x);
  }
}
