/** The session actor: one event at a time it persists history, keeps the deltas not yet stored, and
    feeds the single subscriber slot of each session, which may be held until history is replayed. */
module Sessions {
  import opened Wrappers

  type SessionId = nat
  type Subscriber = nat

  datatype Item =
    | Prompt(prompt: string)
    | Message(parts: seq<string>)
    | Reasoning
    | ToolCall(callId: string)
    | ToolResult(resultId: string)
    | HostedTool

  datatype Event =
    | UserPrompt(prompt: string)
    | TextDelta(text: string)
    | ReasoningDelta(reasoning: string)
    | OutputItem(item: Item)
    | ChatDone
    | ChatError(message: string)
    | Failure(message: string)

  datatype Render =
    | PromptShown(prompt: string)
    | TextShown(text: string)
    | ReasoningShown(reasoning: string)
    | ToolShown
    | Done
    | Error(message: string)
    | Cancelled
  {
    predicate Final() {
      Done? || Error? || Cancelled?
    }
  }

  datatype Terminal = Running | Finished | Errored | Stopped

  /** The subscriber slot. */
  datatype Gated = Gated(value: Option<Subscriber>, hold: bool) {
    function Release(): Gated {
      this.(hold := false)
    }
    function Get(): Option<Subscriber> {
      if hold then None else value
    }
    /** What remains after `take`. */
    function Taken(): Gated {
      if hold then this else this.(value := None)
    }
  }

  const EMPTY := Gated(None, false)

  datatype Session = Session(delta: seq<Event>, terminal: Terminal, subscriber: Gated)

  const FRESH := Session([], Finished, EMPTY)

  /** What storage does when a failed or cancelled turn is cleaned up: fails, rewrites the session's
      history, or finds it empty and removes the session. */
  datatype Cleanup = CleanupFails | Rewritten(history: seq<Item>) | Emptied

  // ---------------------------------------------------------------- one session

  /** A session as its operations see it.  `channels[x]` is everything sent to subscriber `x`. */
  datatype View = View(session: Option<Session>, history: seq<Item>, channels: map<Subscriber, seq<Render>>, next: nat) {
    function Sent(x: Subscriber): seq<Render> {
      if x in channels then channels[x] else []
    }
    function Deliver(to: Option<Subscriber>, renders: seq<Render>): View {
      if to.None? || renders == [] then this
      else this.(channels := channels[to.value := Sent(to.value) + renders])
    }
  }

  function JoinLines(parts: seq<string>): string {
    if parts == [] then "" else if |parts| == 1 then parts[0] else parts[0] + "\n" + JoinLines(parts[1..])
  }

  function StoredItem(e: Event): Option<Item> {
    match e
    case UserPrompt(prompt) => Some(Prompt(prompt))
    case OutputItem(item) => Some(item)
    case _ => None
  }

  /** `shown` says whether a gated tool call can be rendered; that depends on the tool and permission
      managers. */
  function RenderEvent(e: Event, shown: bool): Option<Render> {
    match e
    case TextDelta(text) => Some(TextShown(text))
    case ReasoningDelta(text) => Some(ReasoningShown(text))
    case ChatDone => Some(Done)
    case ChatError(message) => Some(Error(message))
    case Failure(message) => Some(Error(message))
    case UserPrompt(prompt) => Some(PromptShown(prompt))
    case OutputItem(ToolCall(_)) => if shown then Some(ToolShown) else None
    case OutputItem(HostedTool) => Some(ToolShown)
    case OutputItem(_) => None
  }

  function RenderItem(item: Item, shown: Item -> bool): seq<Render> {
    match item
    case Prompt(prompt) => [PromptShown(prompt)]
    case Message(parts) => if parts == [] then [] else [TextShown(JoinLines(parts))]
    case ToolCall(_) => if shown(item) then [ToolShown] else []
    case HostedTool => [ToolShown]
    case _ => []
  }

  function RenderHistory(history: seq<Item>, shown: Item -> bool): seq<Render> {
    if history == [] then []
    else RenderHistory(history[..|history| - 1], shown) + RenderItem(history[|history| - 1], shown)
  }

  function RenderDelta(delta: seq<Event>): seq<Render> {
    if delta == [] then []
    else RenderDelta(delta[..|delta| - 1])
         + match RenderEvent(delta[|delta| - 1], true) case Some(r) => [r] case None => []
  }

  /** Whether a stored message (`text`) or stored reasoning replaces a buffered delta. */
  predicate Replaced(d: Event, text: bool) {
    if text then d.TextDelta? else d.ReasoningDelta?
  }

  function Without(delta: seq<Event>, text: bool): seq<Event> {
    if delta == [] then []
    else Without(delta[..|delta| - 1], text) + if Replaced(delta[|delta| - 1], text) then [] else [delta[|delta| - 1]]
  }

  function Update(s: Session, e: Event): Session {
    match e
    case OutputItem(Message(_)) => s.(delta := Without(s.delta, true))
    case OutputItem(Reasoning) => s.(delta := Without(s.delta, false))
    case OutputItem(_) => s
    case ChatDone => s.(delta := [], terminal := Finished)
    case Failure(_) => s.(delta := [], terminal := Errored)
    case ChatError(_) => s.(delta := [], terminal := Errored)
    case UserPrompt(_) => s.(terminal := Running)
    case TextDelta(_) => s.(delta := s.delta + [e])
    case ReasoningDelta(_) => s.(delta := s.delta + [e])
  }

  function CleanUp(v: View, cleanup: Cleanup): View {
    match cleanup
    case CleanupFails => v
    case Rewritten(history) => v.(history := history)
    case Emptied => v.(session := None, history := [])
  }

  /** Whether `add_event` takes the event: the session exists and is running, unless a prompt starts
      it, and whatever has to be stored is stored. */
  predicate Accepts(v: View, e: Event, stored: bool) {
    && v.session.Some?
    && (v.session.value.terminal == Running || e.UserPrompt?)
    && (StoredItem(e).Some? ==> stored)
  }

  /** The updated session, after its event is sent to an open slot; a final event empties the slot. */
  function Published(v: View, s: Session, render: Option<Render>): View {
    var to := if render.Some? then s.subscriber.Get() else None;
    var over := to.Some? && (s.terminal == Finished || s.terminal == Errored);
    v.(session := Some(if over then s.(subscriber := EMPTY) else s))
     .Deliver(to, if to.Some? then [render.value] else [])
  }

  function Persisted(v: View, e: Event): View {
    match StoredItem(e)
    case Some(item) => v.(history := v.history + [item])
    case None => v
  }

  function AfterEvent(v: View, e: Event, stored: bool, shown: bool, cleanup: Cleanup): View {
    if !Accepts(v, e, stored) then v
    else
      var v1 := Published(Persisted(v, e), Update(v.session.value, e), RenderEvent(e, shown));
      if e.Failure? then CleanUp(v1, cleanup) else v1
  }

  function AfterCancel(v: View, cleanup: Cleanup): View {
    if v.session.None? || v.session.value.terminal != Running then v
    else
      var s := v.session.value;
      CleanUp(v.(session := Some(Session([], Stopped, s.subscriber.Taken())))
               .Deliver(s.subscriber.Get(), [Cancelled]), cleanup)
  }

  /** `read` is whether storage returned the history: the slot is released first, either way. */
  function AfterRestore(v: View, read: bool, shown: Item -> bool): View {
    if v.session.None? then v
    else
      var s := v.session.value.(subscriber := v.session.value.subscriber.Release());
      if !read then v.(session := Some(s))
      else if s.terminal == Running then
        v.(session := Some(s)).Deliver(s.subscriber.value, RenderHistory(v.history, shown) + RenderDelta(s.delta))
      else
        v.(session := Some(s.(subscriber := s.subscriber.Taken())))
         .Deliver(s.subscriber.value, RenderHistory(v.history, shown) + [Done])
  }

  function AfterSubscribe(v: View, hold: bool): View {
    if v.session.None? then v
    else v.(session := Some(v.session.value.(subscriber := Gated(Some(v.next), hold))),
            channels := v.channels[v.next := []], next := v.next + 1)
  }

  /** `created` is whether storage had no such session. */
  function AfterEnsure(v: View, created: bool): View {
    if created then v.(session := Some(FRESH), history := [])
    else if v.session.None? then v.(session := Some(FRESH))
    else v
  }

  // ---------------------------------------------------------------- the actor

  /** The actor's table of sessions, the stored histories and the channels it sends on. */
  class SessionManager {
    var sessions: map<SessionId, Session>
    var histories: map<SessionId, seq<Item>>
    var channels: map<Subscriber, seq<Render>>
    var next: nat

    constructor ()
      ensures sessions == map[] && histories == map[] && channels == map[] && next == 0
    {
      sessions, histories, channels, next := map[], map[], map[], 0;
    }

    ghost function ViewOf(id: SessionId): View
      reads this
    {
      View(if id in sessions then Some(sessions[id]) else None,
           if id in histories then histories[id] else [], channels, next)
    }

    /** No other session's entry or history changed. */
    twostate predicate OnlySession(id: SessionId)
      reads this
    {
      && (forall other | other != id :: other in sessions <==> other in old(sessions))
      && (forall other | other != id && other in sessions :: sessions[other] == old(sessions)[other])
      && (forall other | other != id :: other in histories <==> other in old(histories))
      && (forall other | other != id && other in histories :: histories[other] == old(histories)[other])
    }

    method SendTo(x: Subscriber, render: Render)
      modifies this`channels
      ensures channels == old(channels)[x := (if x in old(channels) then old(channels)[x] else []) + [render]]
    {
      channels := channels[x := (if x in channels then channels[x] else []) + [render]];
    }

    method CleanUpSession(id: SessionId, cleanup: Cleanup)
      modifies this
      ensures ViewOf(id) == CleanUp(old(ViewOf(id)), cleanup)
      ensures OnlySession(id)
    {
      match cleanup
      case CleanupFails =>
      case Rewritten(history) => histories := histories[id := history];
      case Emptied =>
        sessions := sessions - {id};
        histories := histories - {id};
    }

    method AddEvent(id: SessionId, e: Event, stored: bool, shown: bool, cleanup: Cleanup) returns (ok: bool)
      modifies this
      ensures ok ==> Accepts(old(ViewOf(id)), e, stored)
      ensures Accepts(old(ViewOf(id)), e, stored) ==> ok || (e.Failure? && cleanup.CleanupFails?)
      ensures ViewOf(id) == AfterEvent(old(ViewOf(id)), e, stored, shown, cleanup)
      ensures OnlySession(id)
    {
      if id !in sessions { return false; }
      if sessions[id].terminal != Running && !e.UserPrompt? { return false; }
      var item := StoredItem(e);
      if item.Some? {
        if !stored { return false; }
        histories := histories[id := (if id in histories then histories[id] else []) + [item.value]];
      }
      assert ViewOf(id) == Persisted(old(ViewOf(id)), e);
      var session := UpdateLoop(sessions[id], e);
      Publish(id, session, RenderEvent(e, shown));
      ok := true;
      if e.Failure? {
        CleanUpSession(id, cleanup);
        ok := !cleanup.CleanupFails?;
      }
    }

    method Publish(id: SessionId, updated: Session, render: Option<Render>)
      requires id in sessions
      modifies this`sessions, this`channels
      ensures ViewOf(id) == Published(old(ViewOf(id)), updated, render)
      ensures OnlySession(id)
    {
      var session := updated;
      if render.Some? {
        var over := session.terminal == Finished || session.terminal == Errored;
        var subscriber := session.subscriber.Get();
        if subscriber.Some? {
          SendTo(subscriber.value, render.value);
          if over { session := session.(subscriber := EMPTY); }
        }
      }
      sessions := sessions[id := session];
    }

    method CancelEvent(id: SessionId, cleanup: Cleanup)
      modifies this
      ensures ViewOf(id) == AfterCancel(old(ViewOf(id)), cleanup)
      ensures OnlySession(id)
    {
      if id !in sessions { return; }
      var session := sessions[id];
      if session.terminal == Running {
        var subscriber := session.subscriber.Get();
        sessions := sessions[id := Session([], Stopped, session.subscriber.Taken())];
        if subscriber.Some? { SendTo(subscriber.value, Cancelled); }
        CleanUpSession(id, cleanup);
      }
    }

    method RestoreSession(id: SessionId, read: bool, shown: Item -> bool)
      modifies this
      ensures ViewOf(id) == AfterRestore(old(ViewOf(id)), read, shown)
      ensures OnlySession(id)
    {
      if id !in sessions { return; }
      var session := sessions[id].(subscriber := sessions[id].subscriber.Release());
      sessions := sessions[id := session];
      if !read { return; }
      ghost var start := ViewOf(id);
      var history := if id in histories then histories[id] else [];
      var subscriber := session.subscriber.Get();
      ReplayHistory(id, history, subscriber, shown);
      if session.terminal == Running {
        ReplayDelta(id, session.delta, subscriber);
        DeliverMore(start, subscriber, RenderHistory(history, shown), RenderDelta(session.delta));
      } else {
        sessions := sessions[id := session.(subscriber := session.subscriber.Taken())];
        if subscriber.Some? { SendTo(subscriber.value, Done); }
        DeliverMore(start, subscriber, RenderHistory(history, shown), [Done]);
      }
    }

    method ReplayHistory(id: SessionId, history: seq<Item>, subscriber: Option<Subscriber>, shown: Item -> bool)
      modifies this`channels
      ensures ViewOf(id) == old(ViewOf(id)).Deliver(subscriber, RenderHistory(history, shown))
    {
      for i := 0 to |history|
        invariant ViewOf(id) == old(ViewOf(id)).Deliver(subscriber, RenderHistory(history[..i], shown))
      {
        var renders := RenderItem(history[i], shown);
        DeliverMore(old(ViewOf(id)), subscriber, RenderHistory(history[..i], shown), renders);
        assert history[..i + 1][..i] == history[..i];
        if renders != [] && subscriber.Some? { SendTo(subscriber.value, renders[0]); }
      }
      assert history[..|history|] == history;
    }

    method ReplayDelta(id: SessionId, delta: seq<Event>, subscriber: Option<Subscriber>)
      modifies this`channels
      ensures ViewOf(id) == old(ViewOf(id)).Deliver(subscriber, RenderDelta(delta))
    {
      for i := 0 to |delta|
        invariant ViewOf(id) == old(ViewOf(id)).Deliver(subscriber, RenderDelta(delta[..i]))
      {
        var render := RenderEvent(delta[i], true);
        DeliverMore(old(ViewOf(id)), subscriber, RenderDelta(delta[..i]), if render.Some? then [render.value] else []);
        assert delta[..i + 1][..i] == delta[..i];
        if render.Some? && subscriber.Some? { SendTo(subscriber.value, render.value); }
      }
      assert delta[..|delta|] == delta;
    }

    method SubscribeTo(id: SessionId, hold: bool) returns (receiver: Option<Subscriber>)
      modifies this
      ensures ViewOf(id) == AfterSubscribe(old(ViewOf(id)), hold)
      ensures receiver == if id in old(sessions) then Some(old(next)) else None
      ensures OnlySession(id)
    {
      if id !in sessions { return None; }
      receiver := Some(next);
      channels := channels[next := []];
      sessions := sessions[id := sessions[id].(subscriber := Gated(Some(next), hold))];
      next := next + 1;
    }

    method EnsureSession(id: SessionId, created: bool)
      modifies this
      ensures ViewOf(id) == AfterEnsure(old(ViewOf(id)), created)
      ensures OnlySession(id)
    {
      if created {
        sessions := sessions[id := FRESH];
        histories := histories - {id};
      } else if id !in sessions {
        sessions := sessions[id := FRESH];
      }
    }
  }

  method UpdateLoop(s: Session, e: Event) returns (r: Session)
    ensures r == Update(s, e)
  {
    r := s;
    match e
    case OutputItem(item) =>
      if item.Message? {
        var kept := Retain(s.delta, true);
        r := s.(delta := kept);
      } else if item.Reasoning? {
        var kept := Retain(s.delta, false);
        r := s.(delta := kept);
      }
    case ChatDone => r := s.(delta := [], terminal := Finished);
    case Failure(_) => r := s.(delta := [], terminal := Errored);
    case ChatError(_) => r := s.(delta := [], terminal := Errored);
    case UserPrompt(_) => r := s.(terminal := Running);
    case TextDelta(_) => r := s.(delta := s.delta + [e]);
    case ReasoningDelta(_) => r := s.(delta := s.delta + [e]);
  }

  method Retain(delta: seq<Event>, text: bool) returns (kept: seq<Event>)
    ensures kept == Without(delta, text)
  {
    kept := [];
    for i := 0 to |delta|
      invariant kept == Without(delta[..i], text)
    {
      if !Replaced(delta[i], text) { kept := kept + [delta[i]]; }
      assert delta[..i + 1][..i] == delta[..i];
    }
    assert delta[..|delta|] == delta;
  }

  lemma DeliverMore(v: View, to: Option<Subscriber>, a: seq<Render>, b: seq<Render>)
    ensures v.Deliver(to, a).Deliver(to, b) == v.Deliver(to, a + b)
  {
    if to.Some? {
      assert v.Sent(to.value) + a + b == v.Sent(to.value) + (a + b);
    }
    assert a == [] ==> a + b == b;
    assert b == [] ==> a + b == a;
  }
}
