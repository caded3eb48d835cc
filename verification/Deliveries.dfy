/** What reaches the callers of a plugin connection, over whole runs: every chat event read for an open
    stream is put on it, every reply read for a waiting caller is handed to it. */
module Deliveries {
  import opened Multiplexer

  /** What an onlooker notes about one event id, from the frames the reader takes and the table as it is
      then: the chat events read while a stream was registered under the id, how often the reader added an
      Error of its own, whether a reply or error was read while a unary caller was registered, and whether
      the route has been taken away. */
  datatype Notes = Notes(received: seq<ChatEvent>, failures: nat, answered: bool, removed: bool)

  const NOTHING := Notes([], 0, false, false)

  predicate IsStream(s: State, id: EventId) {
    id in s.routes && s.routes[id].kind.Stream?
  }

  predicate IsUnary(s: State, id: EventId) {
    id in s.routes && s.routes[id].kind.Unary?
  }

  function NoteFrame(n: Notes, s: State, id: EventId, receipt: Receipt): Notes {
    match receipt
    case Chat(event) => if IsStream(s, id) then n.(received := n.received + [event]) else n
    case NoPayload => n.(removed := n.removed || id in s.routes)
    case UnaryPayload => n.(removed := n.removed || id in s.routes, answered := n.answered || IsUnary(s, id))
    case ProviderError =>
      n.(removed := n.removed || id in s.routes, answered := n.answered || IsUnary(s, id),
         failures := n.failures + if IsStream(s, id) then 1 else 0)
  }

  function Note(n: Notes, s: State, e: Step, id: EventId): Notes {
    match e
    case Receive(i, receipt) => if i == id then NoteFrame(n, s, id, receipt) else n
    case Retire => if s.reader.Retiring? && s.reader.id == id then n.(removed := n.removed || id in s.routes) else n
    case AtEnd(Tell(i)) => if i == id then n.(failures := n.failures + 1) else n
    case AtEnd(Drop(i)) => if i == id then n.(removed := n.removed || id in s.routes) else n
    case Caller(c, Withdraw) =>
      if c in s.calls && s.calls[c].id == id then n.(removed := n.removed || id in s.routes) else n
    case _ => n
  }

  function Noted(s: State, run: seq<Step>, id: EventId, n: Notes): Notes
    requires IsRun(s, run)
    decreases |run|
  {
    if run == [] then n else Noted(Apply(s, run[0]), run[1..], id, Note(n, s, run[0], id))
  }

  function Errors(count: nat): seq<ChatEvent> {
    seq(count, _ => Error)
  }

  predicate Pending(s: State, id: EventId) {
    s.reader.Forwarding? && s.reader.found && s.reader.id == id
  }

  /** The stream holds every event received, in order, but for one still being forwarded, and then the
      errors the reader added. */
  predicate Delivered(s: State, n: Notes, id: EventId) {
    if Pending(s, id) then
      n.received != [] && n.received[|n.received| - 1] == s.reader.event
      && s.Sent(id) == n.received[..|n.received| - 1] + Errors(n.failures)
    else s.Sent(id) == n.received + Errors(n.failures)
  }

  predicate IdNoted(s: State, n: Notes, id: EventId) {
    (id >= s.next ==> n == NOTHING) && Delivered(s, n, id)
  }

  /** A caller is registered from the moment it enters its route until that is taken away, and has its
      reply exactly if one was read in between. */
  predicate CallNoted(s: State, n: Notes, c: Caller) {
    c in s.calls ==>
      var call := s.calls[c];
      && (call.stage == Allocated ==> n == NOTHING)
      && (call.id in s.routes <==> call.stage != Allocated && !n.removed)
      && (call.stage == Answered || call.stage == Gone ==> n.removed)
      && s.Replies(c) == (if n.answered then [call.id] else [])
  }

  lemma ErrorsMore(count: nat)
    ensures Errors(count + 1) == Errors(count) + [Error] && Errors(0) == []
  {
  }

  /** Nothing is put on a stream behind an error of the reader's. */
  lemma NoFailureBefore(s: State, n: Notes, id: EventId)
    requires Delivered(s, n, id) && !Ended(s.Sent(id))
    ensures n.failures == 0
  {
  }

  lemma ChatDelivers(s: State, n: Notes, event: ChatEvent, id: EventId)
    requires s.reader.Reading? && IdNoted(s, n, id) && (id >= s.next ==> id !in s.routes)
    requires IsStream(s, id) ==> n.failures == 0
    ensures IdNoted(ReceiveStep(s, id, Chat(event)), NoteFrame(n, s, id, Chat(event)), id)
  {
    if IsStream(s, id) {
      var events := n.received + [event];
      assert events[..|events| - 1] == n.received;
    }
  }

  lemma ReplyDelivers(s: State, n: Notes, receipt: Receipt, id: EventId)
    requires s.reader.Reading? && !receipt.Chat? && IdNoted(s, n, id) && (id >= s.next ==> id !in s.routes)
    ensures IdNoted(ReceiveStep(s, id, receipt), NoteFrame(n, s, id, receipt), id)
  {
    var sent := n.received + Errors(n.failures);
    ErrorsMore(n.failures);
    assert sent + [Error] == n.received + (Errors(n.failures) + [Error]);
  }

  lemma OtherFrame(s: State, n: Notes, i: EventId, receipt: Receipt, id: EventId)
    requires s.reader.Reading? && i != id && IdNoted(s, n, id)
    ensures IdNoted(ReceiveStep(s, i, receipt), n, id)
  {
  }

  lemma ReceiveDelivers(s: State, n: Notes, i: EventId, receipt: Receipt, id: EventId)
    requires s.reader.Reading? && IdInv(s, id) && IdNoted(s, n, id)
    ensures IdNoted(ReceiveStep(s, i, receipt), Note(n, s, Receive(i, receipt), id), id)
  {
    if i != id {
      OtherFrame(s, n, i, receipt, id);
    } else if receipt.Chat? {
      if IsStream(s, id) { NoFailureBefore(s, n, id); }
      ChatDelivers(s, n, receipt.event, id);
    } else {
      ReplyDelivers(s, n, receipt, id);
    }
  }

  lemma ForwardPuts(s: State, id: EventId)
    requires s.reader.Forwarding?
    ensures var t := ForwardStep(s);
            && t.Sent(id) == (if Pending(s, id) then s.Sent(id) + [s.reader.event] else s.Sent(id))
            && !Pending(t, id) && t.next == s.next
  {
  }

  lemma NoErrors(events: seq<ChatEvent>)
    ensures events + Errors(0) == events
    ensures events != [] ==> events == events[..|events| - 1] + [events[|events| - 1]]
  {
  }

  lemma ForwardDelivers(s: State, n: Notes, id: EventId)
    requires s.reader.Forwarding? && IdInv(s, id) && IdNoted(s, n, id)
    ensures IdNoted(ForwardStep(s), n, id)
  {
    ForwardPuts(s, id);
    if Pending(s, id) {
      NoFailureBefore(s, n, id);
      NoErrors(n.received);
      NoErrors(n.received[..|n.received| - 1]);
    }
  }

  lemma ExitDelivers(s: State, n: Notes, act: ExitAct, id: EventId)
    requires ExitEnabled(s, act) && IdInv(s, id) && IdNoted(s, n, id)
    ensures IdNoted(ExitStep(s, act), Note(n, s, AtEnd(act), id), id)
  {
    if act == Tell(id) {
      ErrorsMore(n.failures);
      var sent := n.received + Errors(n.failures);
      assert sent + [Error] == n.received + (Errors(n.failures) + [Error]);
    }
  }

  lemma CallerDelivers(s: State, n: Notes, c: Caller, act: CallerAct, id: EventId)
    requires CallerEnabled(s, c, act) && CallInv(s, c) && IdInv(s, id) && IdNoted(s, n, id)
    ensures IdNoted(CallerStep(s, c, act), Note(n, s, Caller(c, act), id), id)
  {
  }

  lemma RestDelivers(s: State, n: Notes, e: Step, id: EventId)
    requires (e.WriterFails? || e.WriterQuits? || e.Retire?) && Enabled(s, e) && IdInv(s, id) && IdNoted(s, n, id)
    ensures IdNoted(Apply(s, e), Note(n, s, e, id), id)
  {
  }

  lemma IdKept(s: State, n: Notes, e: Step, id: EventId)
    requires Inv(s) && Enabled(s, e) && IdNoted(s, n, id)
    ensures IdNoted(Apply(s, e), Note(n, s, e, id), id)
  {
    assert IdInv(s, id);
    match e {
      case Receive(i, receipt) => ReceiveDelivers(s, n, i, receipt, id);
      case Forward => ForwardDelivers(s, n, id);
      case AtEnd(act) => ExitDelivers(s, n, act, id);
      case Caller(c, act) =>
        assert CallInv(s, c);
        CallerDelivers(s, n, c, act, id);
      case _ => RestDelivers(s, n, e, id);
    }
  }

  lemma ReceiveAnswers(s: State, n: Notes, i: EventId, receipt: Receipt, c: Caller)
    requires s.reader.Reading? && c in s.calls && CallNoted(s, n, c) && CallInv(s, c) && IdInv(s, i)
    requires i in s.routes ==> Apart(s, c, s.routes[i].owner)
    ensures CallNoted(ReceiveStep(s, i, receipt), Note(n, s, Receive(i, receipt), s.calls[c].id), c)
  {
  }

  lemma ExitAnswers(s: State, n: Notes, act: ExitAct, c: Caller)
    requires ExitEnabled(s, act) && c in s.calls && CallNoted(s, n, c) && CallInv(s, c)
    requires IdInv(s, s.calls[c].id)
    ensures CallNoted(ExitStep(s, act), Note(n, s, AtEnd(act), s.calls[c].id), c)
  {
  }

  lemma CallerAnswers(s: State, n: Notes, d: Caller, act: CallerAct, c: Caller)
    requires CallerEnabled(s, d, act) && c in s.calls && CallNoted(s, n, c) && CallInv(s, c) && Apart(s, c, d)
    ensures CallNoted(CallerStep(s, d, act), Note(n, s, Caller(d, act), s.calls[c].id), c)
  {
  }

  lemma CallKept(s: State, n: Notes, e: Step, c: Caller)
    requires Inv(s) && Enabled(s, e) && c in s.calls && CallNoted(s, n, c)
    ensures CallNoted(Apply(s, e), Note(n, s, e, s.calls[c].id), c)
  {
    assert CallInv(s, c) && IdInv(s, s.calls[c].id);
    match e {
      case Receive(i, receipt) =>
        assert IdInv(s, i);
        if i in s.routes { assert Apart(s, c, s.routes[i].owner); }
        ReceiveAnswers(s, n, i, receipt, c);
      case AtEnd(act) => ExitAnswers(s, n, act, c);
      case Caller(d, act) =>
        assert Apart(s, c, d);
        CallerAnswers(s, n, d, act, c);
      case _ =>
    }
  }

  lemma FirstNoted(s: State, n: Notes, c: Caller, kind: Kind)
    requires Inv(s) && c !in s.calls && IdNoted(s, n, s.next)
    ensures CallNoted(CallerStep(s, c, Allocate(kind)), n, c)
  {
    assert IdInv(s, s.next) && CallInv(s, c);
  }

  ghost predicate AllNoted(s: State, n: Notes, id: EventId) {
    && IdNoted(s, n, id)
    && forall c | c in s.calls && s.calls[c].id == id :: CallNoted(s, n, c)
  }

  lemma AllKept(s: State, n: Notes, e: Step, id: EventId)
    requires Inv(s) && Enabled(s, e) && AllNoted(s, n, id)
    ensures AllNoted(Apply(s, e), Note(n, s, e, id), id)
  {
    var t := Apply(s, e);
    IdKept(s, n, e, id);
    forall c | c in t.calls && t.calls[c].id == id ensures CallNoted(t, Note(n, s, e, id), c) {
      SameCalls(s, e, c);
      if c in s.calls { CallKept(s, n, e, c); } else { FirstNoted(s, n, c, e.act.kind); }
    }
  }

  /** Only `Allocate` brings a call, and the id of a call never changes. */
  lemma SameCalls(s: State, e: Step, c: Caller)
    requires Enabled(s, e) && c in Apply(s, e).calls
    ensures if c in s.calls then Apply(s, e).calls[c].id == s.calls[c].id
            else e.Caller? && e.c == c && e.act.Allocate? && Apply(s, e).calls[c].id == s.next
  {
    match e {
      case Caller(d, act) => CallerFrame(s, d, act);
      case AtEnd(act) => ExitFrame(s, act);
      case Receive(id, receipt) => ReceiveFrame(s, id, receipt);
      case _ => ReaderFrame(s, e);
    }
  }

  lemma {:induction false} RunNoted(s: State, run: seq<Step>, id: EventId, n: Notes)
    requires Inv(s) && IsRun(s, run) && AllNoted(s, n, id)
    ensures AllNoted(After(s, run), Noted(s, run, id, n), id)
    decreases |run|
  {
    if run != [] {
      StepKeeps(s, run[0]);
      AllKept(s, n, run[0], id);
      RunNoted(Apply(s, run[0]), run[1..], id, Note(n, s, run[0], id));
    }
  }

  lemma {:induction false} FromStart(run: seq<Step>, id: EventId)
    requires IsRun(INITIAL, run)
    ensures AllNoted(After(INITIAL, run), Noted(INITIAL, run, id, NOTHING), id) && Inv(After(INITIAL, run))
  {
    assert [] + Errors(0) == [];
    RunNoted(INITIAL, run, id, NOTHING);
    RunKeeps(INITIAL, run);
  }

  // ---------------------------------------------------------------- main results

  /** Over every run, what is on a stream is every event read for it while it was registered, in the order
      read, without the one that is still being forwarded, and then at most one Error of the reader's: the
      one for a provider error read while it was registered, or for the plugin's exit. */
  lemma {:induction false} StreamDelivered(run: seq<Step>, id: EventId)
    requires IsRun(INITIAL, run)
    ensures var s, n := After(INITIAL, run), Noted(INITIAL, run, id, NOTHING);
            Delivered(s, n, id) && n.failures <= 1
  {
    FromStart(run, id);
    var s, n := After(INITIAL, run), Noted(INITIAL, run, id, NOTHING);
    assert IdInv(s, id);
    if n.failures > 1 {
      var at := |s.Sent(id)| - 2;
      assert s.Sent(id)[at] == Error && Terminal(s.Sent(id)[at]);
      assert false;
    }
  }

  /** Over every run, a caller has its reply exactly if a reply or a provider error was read for its id
      while it was registered, and it is registered from entering its route until the reader or the caller
      itself takes that away, which has happened once it has its reply or has returned. */
  lemma {:induction false} CallAnswered(run: seq<Step>, c: Caller)
    requires IsRun(INITIAL, run) && c in After(INITIAL, run).calls
    ensures var s := After(INITIAL, run);
            var n := Noted(INITIAL, run, s.calls[c].id, NOTHING);
            && s.Replies(c) == (if n.answered then [s.calls[c].id] else [])
            && (s.calls[c].id in s.routes <==> s.calls[c].stage != Allocated && !n.removed)
            && (s.At(c, Answered) || s.At(c, Gone) ==> s.calls[c].id !in s.routes)
  {
    FromStart(run, After(INITIAL, run).calls[c].id);
  }

  /** A frame that is no chat event, and a terminal chat event once it has been dealt with, leave no route
      under their id; a caller that has given up leaves none either. */
  lemma RouteTakenAway(s: State, e: Step)
    requires Reachable(s) && Enabled(s, e)
    ensures e.Receive? && !e.receipt.Chat? ==> e.id !in Apply(s, e).routes
    ensures s.reader.Reading? ==> forall id | id in s.routes :: !Ended(s.Sent(id))
    ensures e.Caller? && e.act.Withdraw? ==> s.calls[e.c].id !in Apply(s, e).routes && Apply(s, e).At(e.c, Gone)
  {
    ReachableInv(s);
    forall id | id in s.routes ensures s.reader.Reading? ==> !Ended(s.Sent(id)) {
      assert IdInv(s, id);
    }
  }

  /** The last word on the health of a plugin: a handshake completed, or a failed write or end of file. */
  function LastWord(run: seq<Step>): Health {
    if run == [] then Starting
    else match run[|run| - 1]
      case Caller(_, StoreRunning) => Running
      case WriterFails => Unhealthy
      case AtEnd(Exit) => Unhealthy
      case _ => LastWord(run[..|run| - 1])
  }

  /** Over every run the health flag tells the last of these. */
  lemma {:induction false} HealthTells(run: seq<Step>)
    requires IsRun(INITIAL, run)
    ensures After(INITIAL, run).health == LastWord(run)
    decreases |run|
  {
    if run != [] {
      var front, last := run[..|run| - 1], run[|run| - 1];
      assert run == front + [last];
      RunSplits(INITIAL, front, last);
      HealthTells(front);
      HealthStep(After(INITIAL, front), last);
    }
  }

  lemma HealthStep(s: State, e: Step)
    requires Enabled(s, e)
    ensures Apply(s, e).health
         == if e.Caller? && e.act.StoreRunning? then Running
            else if e.WriterFails? || e == AtEnd(Exit) then Unhealthy else s.health
  {
    match e {
      case Caller(c, act) => CallerHealth(s, c, act);
      case AtEnd(act) => ExitHealth(s, act);
      case Receive(id, receipt) => ReceiveFrame(s, id, receipt);
      case _ =>
    }
  }

  lemma CallerHealth(s: State, c: Caller, act: CallerAct)
    requires CallerEnabled(s, c, act)
    ensures CallerStep(s, c, act).health == if act.StoreRunning? then Running else s.health
  {
  }

  lemma ExitHealth(s: State, act: ExitAct)
    requires ExitEnabled(s, act)
    ensures ExitStep(s, act).health == if act.Exit? then Unhealthy else s.health
  {
  }

  lemma {:induction false} RunSplits(s: State, front: seq<Step>, last: Step)
    requires IsRun(s, front + [last])
    ensures IsRun(s, front) && Enabled(After(s, front), last)
    ensures After(s, front + [last]) == Apply(After(s, front), last)
    decreases |front|
  {
    if front == [] {
      assert front + [last] == [last];
      One(s, last);
    } else {
      assert (front + [last])[1..] == front[1..] + [last] && (front + [last])[0] == front[0];
      RunSplits(Apply(s, front[0]), front[1..], last);
    }
  }
}
