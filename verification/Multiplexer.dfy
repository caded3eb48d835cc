/** The host side of a plugin connection: concurrent callers, one reader task and one writer task
    share a route table and a health flag.  Every shared access is a step of its own, so a run is
    an interleaving; the table's iteration and clearing are not atomic. */
module Multiplexer {

  type EventId = nat
  type Caller = nat

  datatype Health = Starting | Running | Unhealthy
  datatype Kind = Unary | Stream
  datatype ChatEvent = Delta | Done | Error

  /** A registered sender, and the caller holding its receiving end. */
  datatype Route = Route(kind: Kind, owner: Caller)

  /** Where a caller stands: id allocated, route inserted, health check passed, request handed to
      the writer, about to remove its own route, reply received, returned. */
  datatype Stage = Allocated | Registered | Checked | Accepted | Withdrawing | Answered | Gone
  datatype Call = Call(kind: Kind, id: EventId, stage: Stage)

  /** Where the reader task stands.  From `Exited` on it is on the end-of-file path: health stored,
      streams collected, each told of the exit, the table cleared. */
  datatype Reader =
    | Reading
    | Forwarding(id: EventId, event: ChatEvent, found: bool)
    | Retiring(id: EventId)
    | Exited
    | Collecting(begin: set<EventId>, visited: set<EventId>, streams: set<EventId>)
    | Notifying(streams: set<EventId>, told: set<EventId>)
    | Clearing(begin: set<EventId>)
    | Closed
  {
    predicate AtEof() {
      Exited? || Collecting? || Notifying? || Clearing? || Closed?
    }
  }

  /** The writer task: writing, past a failed write with the flag stored but requests still accepted, and
      gone with its end of the channel. */
  datatype Writer = Writing | Failing | Quit

  /** `sent[id]` is everything put on the stream of `id`; `replies[c]` the ids of the replies put in
      the one-shot channel of `c`.  Two history variables: `late` records that the health flag was
      set back to Running after end of file, `atExit` the ids registered at end of file. */
  datatype State = State(
    next: EventId,
    health: Health,
    writer: Writer,
    routes: map<EventId, Route>,
    calls: map<Caller, Call>,
    reader: Reader,
    sent: map<EventId, seq<ChatEvent>>,
    replies: map<Caller, seq<EventId>>,
    late: bool,
    atExit: set<EventId>)
  {
    function Sent(id: EventId): seq<ChatEvent> {
      if id in sent then sent[id] else []
    }
    function Replies(c: Caller): seq<EventId> {
      if c in replies then replies[c] else []
    }
    function Put(id: EventId, event: ChatEvent): State {
      this.(sent := sent[id := Sent(id) + [event]])
    }
    function Answer(c: Caller, id: EventId): State {
      this.(replies := replies[c := Replies(c) + [id]])
    }
    function Move(c: Caller, stage: Stage): State
      requires c in calls
    {
      this.(calls := calls[c := calls[c].(stage := stage)])
    }
    predicate At(c: Caller, stage: Stage) {
      c in calls && calls[c].stage == stage
    }
    predicate Accepts() {
      !writer.Quit?
    }
    function Unroute(id: EventId): State {
      this.(routes := routes - {id})
    }
  }

  const INITIAL := State(0, Starting, Writing, map[], map[], Reading, map[], map[], false, {})

  /** What a caller does: fetch an id, insert its route, load the health flag, hand the request to the
      writer, give up waiting, remove its route, pick up its reply, and after a handshake reply
      store Running. */
  datatype CallerAct =
    Allocate(kind: Kind) | Insert | CheckHealth | Send | TimeOut | Withdraw | Resume | StoreRunning

  /** A decoded frame for an id: a unary payload, a provider error, no payload, a chat event. */
  datatype Receipt = UnaryPayload | ProviderError | NoPayload | Chat(event: ChatEvent)

  /** The reader's end-of-file path. */
  datatype ExitAct =
    Exit | BeginCollect | Visit(id: EventId) | EndCollect | Tell(id: EventId) | EndTell | Drop(id: EventId) | EndClear

  datatype Step =
    | Caller(c: Caller, act: CallerAct)
    | WriterFails
    | WriterQuits
    | Receive(id: EventId, receipt: Receipt)
    | Forward
    | Retire
    | AtEnd(exit: ExitAct)

  predicate Terminal(event: ChatEvent) {
    event.Done? || event.Error?
  }

  predicate CallerEnabled(s: State, c: Caller, act: CallerAct) {
    match act
    case Allocate(_) => c !in s.calls
    case Insert => s.At(c, Allocated)
    case CheckHealth => s.At(c, Registered)
    case Send => s.At(c, Checked)
    case TimeOut => s.At(c, Accepted) && s.calls[c].kind.Unary?
    case Withdraw => s.At(c, Withdrawing)
    case Resume => s.At(c, Accepted) && s.calls[c].kind.Unary? && s.Replies(c) != []
    case StoreRunning => s.At(c, Answered)
  }

  function CallerStep(s: State, c: Caller, act: CallerAct): State
    requires CallerEnabled(s, c, act)
  {
    match act
    case Allocate(kind) => s.(next := s.next + 1, calls := s.calls[c := Call(kind, s.next, Allocated)])
    case Insert =>
      s.Move(c, Registered).(routes := s.routes[s.calls[c].id := Route(s.calls[c].kind, c)])
    case CheckHealth => s.Move(c, if s.health.Unhealthy? then Withdrawing else Checked)
    case Send => s.Move(c, if s.Accepts() then Accepted else Withdrawing)
    case TimeOut => s.Move(c, Withdrawing)
    case Withdraw => s.Move(c, Gone).Unroute(s.calls[c].id)
    case Resume => s.Move(c, Answered)
    case StoreRunning => s.Move(c, Gone).(health := Running, late := s.late || s.reader.AtEof())
  }

  /** A frame for `id`.  Whatever its payload, a unary or error reply removes the route first; a chat
      event is only looked up here, sent by `Forward`, and a terminal one removed by `Retire`. */
  function ReceiveStep(s: State, id: EventId, receipt: Receipt): State {
    var unary := id in s.routes && s.routes[id].kind.Unary?;
    var stream := id in s.routes && s.routes[id].kind.Stream?;
    match receipt
    case Chat(event) => s.(reader := Forwarding(id, event, stream))
    case NoPayload => s.Unroute(id)
    case UnaryPayload => if unary then s.Unroute(id).Answer(s.routes[id].owner, id) else s.Unroute(id)
    case ProviderError =>
      if unary then s.Unroute(id).Answer(s.routes[id].owner, id)
      else if stream then s.Unroute(id).Put(id, Error)
      else s
  }

  predicate ExitEnabled(s: State, act: ExitAct) {
    match act
    case Exit => s.reader.Reading?
    case BeginCollect => s.reader.Exited?
    case Visit(id) => s.reader.Collecting? && id in s.routes && id !in s.reader.visited
    case EndCollect => s.reader.Collecting? && s.reader.begin * s.routes.Keys <= s.reader.visited
    case Tell(id) => s.reader.Notifying? && id in s.reader.streams - s.reader.told
    case EndTell => s.reader.Notifying? && s.reader.streams == s.reader.told
    case Drop(id) => s.reader.Clearing? && id in s.routes
    case EndClear => s.reader.Clearing? && s.reader.begin !! s.routes.Keys
  }

  function ExitStep(s: State, act: ExitAct): State
    requires ExitEnabled(s, act)
  {
    match act
    case Exit => s.(health := Unhealthy, reader := Exited, atExit := s.routes.Keys)
    case BeginCollect => s.(reader := Collecting(s.routes.Keys, {}, {}))
    case Visit(id) =>
      s.(reader := s.reader.(visited := s.reader.visited + {id},
                             streams := s.reader.streams + if s.routes[id].kind.Stream? then {id} else {}))
    case EndCollect => s.(reader := Notifying(s.reader.streams, {}))
    case Tell(id) => s.Put(id, Error).(reader := s.reader.(told := s.reader.told + {id}))
    case EndTell => s.(reader := Clearing(s.routes.Keys))
    case Drop(id) => s.Unroute(id)
    case EndClear => s.(reader := Closed)
  }

  function ForwardStep(s: State): State
    requires s.reader.Forwarding?
  {
    var (id, event) := (s.reader.id, s.reader.event);
    (if s.reader.found then s.Put(id, event) else s)
      .(reader := if Terminal(event) then Retiring(id) else Reading)
  }

  predicate Enabled(s: State, e: Step) {
    match e
    case Caller(c, act) => CallerEnabled(s, c, act)
    case WriterFails => s.writer.Writing?
    case WriterQuits => s.writer.Failing?
    case Receive(_, _) => s.reader.Reading?
    case Forward => s.reader.Forwarding?
    case Retire => s.reader.Retiring?
    case AtEnd(act) => ExitEnabled(s, act)
  }

  function Apply(s: State, e: Step): State
    requires Enabled(s, e)
  {
    match e
    case Caller(c, act) => CallerStep(s, c, act)
    case WriterFails => s.(health := Unhealthy, writer := Failing)
    case WriterQuits => s.(writer := Quit)
    case Receive(id, receipt) => ReceiveStep(s, id, receipt)
    case Forward => ForwardStep(s)
    case Retire => s.Unroute(s.reader.id).(reader := Reading)
    case AtEnd(act) => ExitStep(s, act)
  }

  // ---------------------------------------------------------------- runs

  predicate IsRun(s: State, run: seq<Step>)
    decreases |run|
  {
    run == [] || (Enabled(s, run[0]) && IsRun(Apply(s, run[0]), run[1..]))
  }

  function After(s: State, run: seq<Step>): State
    requires IsRun(s, run)
    decreases |run|
  {
    if run == [] then s else After(Apply(s, run[0]), run[1..])
  }

  ghost predicate Reachable(s: State) {
    exists run :: IsRun(INITIAL, run) && After(INITIAL, run) == s
  }

  // ---------------------------------------------------------------- what every step keeps

  predicate Ended(events: seq<ChatEvent>) {
    events != [] && Terminal(events[|events| - 1])
  }

  predicate EndedByError(events: seq<ChatEvent>) {
    events != [] && events[|events| - 1].Error?
  }

  /** Nothing follows a terminal event. */
  predicate OneTerminal(events: seq<ChatEvent>) {
    forall i | 0 <= i < |events| - 1 :: !Terminal(events[i])
  }

  predicate Passed(call: Call) {
    call.stage == Checked || call.stage == Accepted
  }

  /** No route, no event and no pending event for an id. */
  predicate Untouched(s: State, id: EventId) {
    && id !in s.routes
    && s.Sent(id) == []
    && !(s.reader.Forwarding? && s.reader.found && s.reader.id == id)
    && (s.reader.Collecting? || s.reader.Notifying? ==> id !in s.reader.streams)
  }

  predicate Apart(s: State, c: Caller, d: Caller) {
    c in s.calls && d in s.calls && s.calls[c].id == s.calls[d].id ==> c == d
  }

  /** What holds of each event id: its route leads back to the caller it was allocated to, and a
      stream that has its terminal event is no longer open to further events. */
  predicate IdInv(s: State, id: EventId) {
    && (id >= s.next ==> Untouched(s, id))
    && (id in s.routes ==>
          var c := s.routes[id].owner;
          && c in s.calls && s.calls[c].id == id && s.calls[c].kind == s.routes[id].kind
          && s.calls[c].stage != Allocated)
    && OneTerminal(s.Sent(id))
    && (id in s.routes && Ended(s.Sent(id)) ==>
          || (s.reader.Retiring? && s.reader.id == id)
          || (s.reader.Notifying? && id in s.reader.told)
          || s.reader.Clearing? || s.reader.Closed?)
    && (s.reader.Forwarding? && s.reader.found && s.reader.id == id ==> !Ended(s.Sent(id)))
    && (s.reader.Collecting? && id in s.reader.streams ==> !Ended(s.Sent(id)) && id in s.reader.visited)
    && (s.reader.Notifying? && id in s.reader.streams - s.reader.told ==> !Ended(s.Sent(id)))
    && (s.reader.Notifying? && id in s.reader.told ==>
          id in s.reader.streams && EndedByError(s.Sent(id)))
  }

  /** What holds of each caller: at most one reply, to its own id; and on the end-of-file path,
      unless the flag was set back, everybody who passed the health check and is still in the table
      is in the part of it that the reader has yet to handle. */
  predicate CallInv(s: State, c: Caller) {
    && (c !in s.calls ==> s.Replies(c) == [])
    && (c in s.calls ==>
          var call := s.calls[c];
          && call.id < s.next
          && (call.stage == Allocated ==> Untouched(s, call.id))
          && (s.Replies(c) == [] || (s.Replies(c) == [call.id] && call.id !in s.routes && call.stage != Allocated))
          && (s.reader.AtEof() && !s.late && Passed(call) ==>
                && (call.id in s.routes ==>
                      !s.reader.Closed? && (s.reader.Clearing? ==> call.id in s.reader.begin))
                && (call.kind.Stream? && call.id in s.atExit ==> StreamAtExit(s, call.id))))
  }

  predicate StreamAtExit(s: State, id: EventId) {
    && (!s.reader.Clearing? && !s.reader.Closed? ==> id in s.routes)
    && (s.reader.Collecting? ==> id in s.reader.begin && (id in s.reader.visited ==> id in s.reader.streams))
    && (s.reader.Notifying? ==> id in s.reader.streams)
    && (s.reader.Clearing? || s.reader.Closed? ==> EndedByError(s.Sent(id)))
  }

  ghost predicate Inv(s: State) {
    && FlagInv(s)
    && (forall c, d :: Apart(s, c, d))
    && (forall id :: IdInv(s, id))
    && (forall c :: CallInv(s, c))
  }

  // Each lemma below is about one id or one caller, given the facts around it.

  /** Acts that allocate an id or change the table; the others only move the caller on. */
  predicate ChangesTable(act: CallerAct) {
    act.Allocate? || act.Insert? || act.Withdraw?
  }

  lemma TableActKeepsId(s: State, c: Caller, act: CallerAct, id: EventId)
    requires ChangesTable(act) && CallerEnabled(s, c, act) && CallInv(s, c) && IdInv(s, id)
    requires id in s.routes ==> Apart(s, c, s.routes[id].owner)
    ensures IdInv(CallerStep(s, c, act), id)
  {
  }

  lemma MoveKeepsId(s: State, c: Caller, act: CallerAct, id: EventId)
    requires !ChangesTable(act) && CallerEnabled(s, c, act) && IdInv(s, id)
    ensures IdInv(CallerStep(s, c, act), id)
  {
  }

  lemma TableActKeepsCall(s: State, c: Caller, act: CallerAct, d: Caller)
    requires ChangesTable(act) && CallerEnabled(s, c, act) && CallInv(s, c) && CallInv(s, d) && Apart(s, c, d)
    requires IdInv(s, s.next)
    ensures CallInv(CallerStep(s, c, act), d)
  {
  }

  lemma MoveKeepsCall(s: State, c: Caller, act: CallerAct, d: Caller)
    requires !ChangesTable(act) && CallerEnabled(s, c, act) && CallInv(s, d)
    requires s.reader.AtEof() && !s.late ==> s.health.Unhealthy?
    ensures CallInv(CallerStep(s, c, act), d)
  {
  }

  lemma ReceiveKeepsId(s: State, target: EventId, receipt: Receipt, id: EventId)
    requires s.reader.Reading? && IdInv(s, id)
    requires target in s.routes ==> CallInv(s, s.routes[target].owner) && IdInv(s, target)
    ensures IdInv(ReceiveStep(s, target, receipt), id)
  {
  }

  lemma ReceiveKeepsCall(s: State, target: EventId, receipt: Receipt, d: Caller)
    requires s.reader.Reading? && CallInv(s, d) && IdInv(s, target)
    requires d in s.calls && target in s.routes ==> Apart(s, d, s.routes[target].owner)
    ensures CallInv(ReceiveStep(s, target, receipt), d)
  {
  }

  lemma ExitKeepsId(s: State, act: ExitAct, id: EventId)
    requires ExitEnabled(s, act) && IdInv(s, id)
    ensures IdInv(ExitStep(s, act), id)
  {
  }

  lemma ExitKeepsCall(s: State, act: ExitAct, d: Caller)
    requires ExitEnabled(s, act) && CallInv(s, d)
    requires d in s.calls ==>
      IdInv(s, s.calls[d].id) && (s.calls[d].id in s.routes ==> Apart(s, d, s.routes[s.calls[d].id].owner))
    ensures CallInv(ExitStep(s, act), d)
  {
  }

  lemma ForwardKeepsId(s: State, e: Step, id: EventId)
    requires (e.Forward? || e.Retire?) && Enabled(s, e) && IdInv(s, id)
    ensures IdInv(Apply(s, e), id)
  {
  }

  lemma ForwardKeepsCall(s: State, e: Step, d: Caller)
    requires (e.Forward? || e.Retire?) && Enabled(s, e) && CallInv(s, d)
    ensures CallInv(Apply(s, e), d)
  {
  }

  lemma KeepsId(s: State, e: Step, id: EventId)
    requires Inv(s) && Enabled(s, e)
    ensures IdInv(Apply(s, e), id)
  {
    assert IdInv(s, id);
    match e {
      case Caller(c, act) =>
        assert CallInv(s, c);
        if id in s.routes { assert Apart(s, c, s.routes[id].owner); }
        if ChangesTable(act) { TableActKeepsId(s, c, act, id); } else { MoveKeepsId(s, c, act, id); }
      case Receive(target, receipt) =>
        if target in s.routes { assert CallInv(s, s.routes[target].owner) && IdInv(s, target); }
        ReceiveKeepsId(s, target, receipt, id);
      case AtEnd(act) => ExitKeepsId(s, act, id);
      case WriterFails =>
      case WriterQuits =>
      case _ => ForwardKeepsId(s, e, id);
    }
  }

  lemma KeepsCall(s: State, e: Step, d: Caller)
    requires Inv(s) && Enabled(s, e)
    ensures CallInv(Apply(s, e), d)
  {
    assert CallInv(s, d);
    match e {
      case Caller(c, act) =>
        assert CallInv(s, c) && Apart(s, c, d) && IdInv(s, s.next);
        if ChangesTable(act) { TableActKeepsCall(s, c, act, d); } else { MoveKeepsCall(s, c, act, d); }
      case Receive(target, receipt) =>
        assert IdInv(s, target);
        if target in s.routes { assert Apart(s, d, s.routes[target].owner); }
        ReceiveKeepsCall(s, target, receipt, d);
      case AtEnd(act) =>
        if d in s.calls {
          var id := s.calls[d].id;
          assert IdInv(s, id);
          if id in s.routes { assert Apart(s, d, s.routes[id].owner); }
        }
        ExitKeepsCall(s, act, d);
      case WriterFails =>
      case WriterQuits =>
      case _ => ForwardKeepsCall(s, e, d);
    }
  }

  lemma CallerFrame(s: State, c: Caller, act: CallerAct)
    requires CallerEnabled(s, c, act)
    ensures var t := CallerStep(s, c, act);
            && t.reader == s.reader && t.writer == s.writer && (s.late ==> t.late)
            && (t.health != s.health ==> t.health.Running? && (s.reader.AtEof() ==> t.late))
            && (t.late != s.late ==> s.reader.AtEof() && t.health.Running?)
            && t.calls.Keys == s.calls.Keys + {c}
            && (forall d | d in s.calls :: t.calls[d].id == s.calls[d].id)
            && (c !in s.calls ==> t.calls[c].id == s.next)
  {
  }

  lemma ExitFrame(s: State, act: ExitAct)
    requires ExitEnabled(s, act)
    ensures var t := ExitStep(s, act);
            && t.calls == s.calls && t.late == s.late && t.writer == s.writer && t.reader.AtEof()
            && (s.reader.AtEof() ==> t.health == s.health)
            && (!s.reader.AtEof() ==> t.health.Unhealthy?)
            && (t.reader.Notifying? ==> t.reader.told == {} || s.reader.Notifying?)
            && (s.reader.Notifying? && t.reader.Notifying? ==>
                  t.reader.streams == s.reader.streams && t.reader.told <= s.reader.told + s.reader.streams)
  {
  }

  lemma ReceiveFrame(s: State, id: EventId, receipt: Receipt)
    requires s.reader.Reading?
    ensures var t := ReceiveStep(s, id, receipt);
            && t.calls == s.calls && t.late == s.late && t.health == s.health && !t.reader.AtEof()
            && t.writer == s.writer
  {
  }

  lemma ReaderFrame(s: State, e: Step)
    requires e.WriterFails? || e.WriterQuits? || e.Forward? || e.Retire?
    requires Enabled(s, e)
    ensures var t := Apply(s, e);
            && t.calls == s.calls && t.late == s.late
            && (t.health == s.health || t.health.Unhealthy?)
            && (e.WriterFails? || e.WriterQuits? ==>
                  && t.reader == s.reader && t.next == s.next && t.routes == s.routes && t.sent == s.sent
                  && !t.writer.Writing? && (t.Accepts() ==> s.Accepts()))
            && (e.Forward? || e.Retire? ==> !t.reader.AtEof() && t.writer == s.writer)
  {
  }

  lemma KeepsApart(s: State, e: Step, c: Caller, d: Caller)
    requires Enabled(s, e) && Apart(s, c, d) && CallInv(s, c) && CallInv(s, d)
    ensures Apart(Apply(s, e), c, d)
  {
    match e {
      case Caller(x, act) => CallerFrame(s, x, act);
      case AtEnd(act) => ExitFrame(s, act);
      case Receive(id, receipt) => ReceiveFrame(s, id, receipt);
      case _ => ReaderFrame(s, e);
    }
  }

  predicate FlagInv(s: State) {
    && (s.reader.AtEof() && !s.late ==> s.health.Unhealthy?)
    && (s.late ==> s.reader.AtEof() && (s.writer.Writing? ==> s.health.Running?))
    && (s.reader.Notifying? ==> s.reader.told <= s.reader.streams)
  }

  lemma FlagKeeps(s: State, e: Step)
    requires FlagInv(s) && Enabled(s, e)
    ensures FlagInv(Apply(s, e))
  {
    match e {
      case Caller(x, act) => CallerFrame(s, x, act);
      case AtEnd(act) => ExitFrame(s, act);
      case Receive(id, receipt) => ReceiveFrame(s, id, receipt);
      case _ => ReaderFrame(s, e);
    }
  }

  /** Every step, whoever takes it, keeps the invariant. */
  lemma StepKeeps(s: State, e: Step)
    requires Inv(s) && Enabled(s, e)
    ensures Inv(Apply(s, e))
  {
    forall id ensures IdInv(Apply(s, e), id) { KeepsId(s, e, id); }
    forall c ensures CallInv(Apply(s, e), c) { KeepsCall(s, e, c); }
    forall c, d ensures Apart(Apply(s, e), c, d) {
      assert Apart(s, c, d) && CallInv(s, c) && CallInv(s, d);
      KeepsApart(s, e, c, d);
    }
    FlagKeeps(s, e);
  }

  lemma {:induction false} RunKeeps(s: State, run: seq<Step>)
    requires Inv(s) && IsRun(s, run)
    ensures Inv(After(s, run))
    decreases |run|
  {
    if run != [] {
      StepKeeps(s, run[0]);
      RunKeeps(Apply(s, run[0]), run[1..]);
    }
  }

  lemma ReachableInv(s: State)
    requires Reachable(s)
    ensures Inv(s)
  {
    var run :| IsRun(INITIAL, run) && After(INITIAL, run) == s;
    RunKeeps(INITIAL, run);
  }

  // ---------------------------------------------------------------- main results

  /** Every chat stream, in every interleaving, gets at most one terminal event and nothing after it. */
  lemma AtMostOneTerminal(s: State, id: EventId)
    requires Reachable(s)
    ensures OneTerminal(s.Sent(id))
  {
    ReachableInv(s);
    assert IdInv(s, id);
  }

  /** A caller is sent at most one reply, and only one for the event id it allocated; no two callers
      share an id. */
  lemma RepliesReachTheirCaller(s: State, c: Caller, d: Caller)
    requires Reachable(s)
    ensures s.Replies(c) != [] ==> c in s.calls && s.Replies(c) == [s.calls[c].id]
    ensures c != d && s.Replies(c) != [] && s.Replies(d) != [] ==> s.Replies(c) != s.Replies(d)
  {
    ReachableInv(s);
    assert CallInv(s, c) && CallInv(s, d) && Apart(s, c, d);
  }

  /** Once the table is cleared, no caller that passed its health check is still registered, and each
      accepted stream that was registered at end of file has been sent one Error as its last event.
      Whoever is still in the table has been refused, or is about to be. */
  lemma ClearedTableHoldsNobody(s: State, c: Caller)
    requires Reachable(s) && s.reader.Closed? && !s.late
    requires c in s.calls
    ensures Passed(s.calls[c]) ==> s.calls[c].id !in s.routes
    ensures s.At(c, Accepted) && s.calls[c].kind.Stream? && s.calls[c].id in s.atExit ==>
      EndedByError(s.Sent(s.calls[c].id)) && OneTerminal(s.Sent(s.calls[c].id))
    ensures CallerEnabled(s, c, CheckHealth) ==> CallerStep(s, c, CheckHealth).At(c, Withdrawing)
  {
    ReachableInv(s);
    assert CallInv(s, c) && IdInv(s, s.calls[c].id);
  }

  /** After end of file the flag reads anything but Unhealthy just when a caller that got its handshake
      reply stored Running then, as long as no write has failed; without such a store it stays down. */
  lemma FlagStaysDown(s: State)
    requires Reachable(s) && s.reader.AtEof()
    ensures !s.late ==> s.health.Unhealthy?
    ensures s.writer.Writing? ==> (s.late <==> !s.health.Unhealthy?)
  {
    ReachableInv(s);
  }

  // ---------------------------------------------------------------- who waits for ever

  /** The caller has handed its request to the writer and is registered for the answer, but nothing has
      come, and nobody is left to send or remove anything. */
  predicate Waits(s: State, c: Caller) {
    s.At(c, Accepted) && s.calls[c].kind.Stream? && s.calls[c].id in s.routes && s.Sent(s.calls[c].id) == []
  }

  predicate OwnId(s: State, c: Caller) {
    c in s.calls && s.calls[c].id < s.next && forall d | d in s.calls && d != c :: s.calls[d].id != s.calls[c].id
  }

  predicate Stranded(s: State, c: Caller) {
    s.reader.Closed? && Waits(s, c) && OwnId(s, c)
  }

  /** What another caller's act leaves of a call and its route. */
  lemma OtherCaller(s: State, d: Caller, act: CallerAct, c: Caller)
    requires CallerEnabled(s, d, act) && d != c && c in s.calls
    ensures var t := CallerStep(s, d, act);
            && c in t.calls && t.calls[c] == s.calls[c] && t.sent == s.sent && t.next >= s.next
            && ((d in s.calls ==> s.calls[d].id != s.calls[c].id) ==>
                  (s.calls[c].id in t.routes <==> s.calls[c].id in s.routes))
  {
  }

  lemma StrandedStep(s: State, e: Step, c: Caller)
    requires Stranded(s, c) && Enabled(s, e)
    ensures Stranded(Apply(s, e), c)
  {
    if e.Caller? {
      assert e.c != c;
      OtherCaller(s, e.c, e.act, c);
      CallerFrame(s, e.c, e.act);
    } else {
      ReaderFrame(s, e);
    }
  }

  /** Stranded once, stranded for ever: in every continuation the caller is still registered and has been
      sent nothing. */
  lemma {:induction false} StrandedStays(s: State, run: seq<Step>, c: Caller)
    requires Stranded(s, c) && IsRun(s, run)
    ensures Stranded(After(s, run), c)
    decreases |run|
  {
    if run != [] {
      StrandedStep(s, run[0], c);
      StrandedStays(Apply(s, run[0]), run[1..], c);
    }
  }

  /** The caller has been refused, or will be, since the writer is gone. */
  predicate Refused(s: State, c: Caller) {
    s.At(c, Withdrawing) || s.At(c, Gone) || (s.At(c, Checked) && !s.Accepts())
  }

  lemma RefusedStep(s: State, e: Step, c: Caller)
    requires Refused(s, c) && Enabled(s, e)
    ensures Refused(Apply(s, e), c)
  {
    match e {
      case Caller(d, act) => if d != c { OtherCaller(s, d, act, c); CallerFrame(s, d, act); }
      case AtEnd(act) => ExitFrame(s, act);
      case Receive(id, receipt) => ReceiveFrame(s, id, receipt);
      case _ => ReaderFrame(s, e);
    }
  }

  lemma {:induction false} RefusedStays(s: State, run: seq<Step>, c: Caller)
    requires Refused(s, c) && IsRun(s, run)
    ensures Refused(After(s, run), c)
    decreases |run|
  {
    if run != [] {
      RefusedStep(s, run[0], c);
      RefusedStays(Apply(s, run[0]), run[1..], c);
    }
  }

  ghost predicate WaitsForEver(s: State, c: Caller) {
    forall run | IsRun(s, run) :: Waits(After(s, run), c)
  }

  ghost predicate CanStrand(s: State, c: Caller) {
    exists run :: IsRun(s, run) && WaitsForEver(After(s, run), c)
  }

  /** The caller's stream has ended already: something was put on it, or its route is gone. */
  predicate Over(s: State, c: Caller) {
    && s.reader.Closed? && OwnId(s, c) && s.calls[c].stage != Allocated
    && (s.calls[c].id !in s.routes || s.Sent(s.calls[c].id) != [])
  }

  lemma OverStep(s: State, e: Step, c: Caller)
    requires Over(s, c) && Enabled(s, e)
    ensures Over(Apply(s, e), c)
  {
    if e.Caller? {
      if e.c != c { OtherCaller(s, e.c, e.act, c); }
      CallerFrame(s, e.c, e.act);
    } else {
      ReaderFrame(s, e);
    }
  }

  lemma {:induction false} OverStays(s: State, run: seq<Step>, c: Caller)
    requires Over(s, c) && IsRun(s, run)
    ensures Over(After(s, run), c)
    decreases |run|
  {
    if run != [] {
      OverStep(s, run[0], c);
      OverStays(Apply(s, run[0]), run[1..], c);
    }
  }

  lemma OwnsId(s: State, c: Caller)
    requires Reachable(s) && c in s.calls
    ensures OwnId(s, c)
  {
    ReachableInv(s);
    assert CallInv(s, c);
    forall d | d in s.calls && d != c ensures s.calls[d].id != s.calls[c].id {
      assert Apart(s, c, d);
    }
  }

  /** A chat that loads the health flag after the table was cleared, whatever came before the load, can
      come to wait for ever just when the flag does not read Unhealthy, the writer accepts, and its stream
      is still registered with nothing on it. */
  lemma StrandsIff(s: State, c: Caller)
    requires Reachable(s) && s.reader.Closed? && s.At(c, Registered) && s.calls[c].kind.Stream?
    ensures CanStrand(CallerStep(s, c, CheckHealth), c)
       <==> && !s.health.Unhealthy? && s.Accepts()
            && s.calls[c].id in s.routes && s.Sent(s.calls[c].id) == []
  {
    OwnsId(s, c);
    var t := CallerStep(s, c, CheckHealth);
    if s.calls[c].id !in s.routes || s.Sent(s.calls[c].id) != [] {
      forall run | IsRun(t, run) ensures !WaitsForEver(After(t, run), c) {
        OverStays(t, run, c);
        Nothing(After(t, run));
      }
    } else if !s.health.Unhealthy? && s.Accepts() {
      var u := CallerStep(t, c, Send);
      assert Stranded(u, c);
      forall run | IsRun(u, run) ensures Waits(After(u, run), c) {
        StrandedStays(u, run, c);
      }
      One(t, Caller(c, Send));
      assert WaitsForEver(After(t, [Caller(c, Send)]), c);
    } else {
      forall run | IsRun(t, run) ensures !WaitsForEver(After(t, run), c) {
        RefusedStays(t, run, c);
        Nothing(After(t, run));
      }
    }
  }

  lemma {:induction false} One(s: State, e: Step)
    requires Enabled(s, e)
    ensures IsRun(s, [e]) && After(s, [e]) == Apply(s, e)
  {
    assert [e][1..] == [];
    Nothing(Apply(s, e));
  }

  lemma {:induction false} Nothing(s: State)
    ensures IsRun(s, []) && After(s, []) == s
  {
  }

  /** Such a state is reached: the handshake reply is delivered, the plugin exits, and the table is cleared
      before the handshake caller gets to store Running; a chat that loads the flag after that store can
      then wait for ever. */
  lemma LateRunningReachable() returns (s: State)
    ensures Reachable(s) && s.reader.Closed? && s.late && s.health.Running? && s.writer.Writing?
    ensures s.At(1, Registered) && CanStrand(CallerStep(s, 1, CheckHealth), 1)
  {
    s := HandshakeReplied();
    s := Then(s, AtEnd(Exit));
    s := Then(s, AtEnd(BeginCollect));
    s := Then(s, AtEnd(EndCollect));
    s := Then(s, AtEnd(EndTell));
    s := Then(s, AtEnd(EndClear));
    s := Then(s, Caller(1, Allocate(Stream)));
    s := Then(s, Caller(1, Insert));
    s := Then(s, Caller(0, StoreRunning));
    StrandsIff(s, 1);
  }

  lemma HandshakeReplied() returns (s: State)
    ensures Reachable(s) && s.reader.Reading? && s.At(0, Answered) && s.writer.Writing? && s.routes.Keys == {}
    ensures 1 !in s.calls && s.sent == map[]
  {
    assert IsRun(INITIAL, []) && After(INITIAL, []) == INITIAL;
    s := Then(INITIAL, Caller(0, Allocate(Unary)));
    s := Then(s, Caller(0, Insert));
    s := Then(s, Caller(0, CheckHealth));
    s := Then(s, Caller(0, Send));
    s := Then(s, Receive(0, UnaryPayload));
    s := Then(s, Caller(0, Resume));
  }

  lemma Then(s: State, e: Step) returns (t: State)
    requires Reachable(s) && Enabled(s, e)
    ensures t == Apply(s, e) && Reachable(t)
  {
    t := Apply(s, e);
    var run :| IsRun(INITIAL, run) && After(INITIAL, run) == s;
    assert [e][1..] == [] && IsRun(t, []) && IsRun(s, [e]);
    RunsCompose(INITIAL, run, [e]);
  }

  lemma {:induction false} RunsCompose(s: State, a: seq<Step>, b: seq<Step>)
    requires IsRun(s, a) && IsRun(After(s, a), b)
    ensures IsRun(s, a + b) && After(s, a + b) == After(After(s, a), b)
    decreases |a|
  {
    if a == [] {
      assert a + b == b;
    } else {
      RunsCompose(Apply(s, a[0]), a[1..], b);
      assert (a + b)[1..] == a[1..] + b && (a + b)[0] == a[0];
    }
  }
}
