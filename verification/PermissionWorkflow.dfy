/** The permission workflow: calls are classified, resolved at once or left to the user, and evicted some
    time after they resolve. */
module PermissionWorkflow {
  import opened Wrappers
  import opened Permissions

  type Uuid = nat
  type CallId = string

  const PERMISSION_EVICT_TTL_SECS: nat := 600

  datatype PermissionState = Granted | Denied | Error

  datatype UserDecision =
    | AllowOnce(call: CallId)
    | AllowRule(call: CallId, command: string, glob: bool)
    | AllowSession(session: Uuid, call: CallId)
    | IgnorePermission(session: Uuid, call: CallId)
    | Deny(call: CallId)

  datatype SessionPermission = SessionPermission(always: bool, allowlist: set<string>)

  /** One tracked call. `cell` names the future its waiters hold; `evictAt` is absent while it is pending. */
  datatype PermissionRequest =
    PermissionRequest(session: Uuid, decision: PermissionDecision, cell: nat, command: Argv, evictAt: Option<nat>)

  datatype WorkflowError =
    | Permission(error: PermissionError)
    | MissingCallerId(call: CallId)
    | MissingSession(session: Uuid)
    | AlreadyResolved(call: CallId)

  type Decision = Result<PermissionState, WorkflowError>

  /** The manager's state. The futures are numbered in the order they were made; each holds at most one
      value. */
  datatype State = State(
    sessions: map<Uuid, SessionPermission>,
    tracker: map<CallId, PermissionRequest>,
    cells: seq<Option<PermissionState>>,
    rules: Rules)

  const NO_PERMISSION := SessionPermission(false, {})

  // ---------------------------------------------------------------- the complete-once cell

  /** Completing a future that has a value keeps that value. */
  function Complete(cells: seq<Option<PermissionState>>, cell: nat, value: PermissionState): seq<Option<PermissionState>> {
    if cell < |cells| && cells[cell].None? then cells[cell := Some(value)] else cells
  }

  function Resolve(s: State, call: CallId, value: PermissionState, now: nat): State
    requires call in s.tracker
  {
    var r := s.tracker[call];
    s.(cells := Complete(s.cells, r.cell, value),
       tracker := s.tracker[call := r.(evictAt := Some(now + PERMISSION_EVICT_TTL_SECS))])
  }

  predicate Completed(s: State, call: CallId)
    requires call in s.tracker
  {
    s.tracker[call].cell >= |s.cells| || s.cells[s.tracker[call].cell].Some?
  }

  // ---------------------------------------------------------------- what each event does

  function SessionOf(s: State, session: Uuid): SessionPermission {
    if session in s.sessions then s.sessions[session] else NO_PERMISSION
  }

  predicate SessionAllows(p: SessionPermission, command: Argv) {
    p.always || Join(command) in p.allowlist
  }

  /** How a call starts: with a result, or waiting for the user. */
  function InitialResult(c: Result<PermissionDecision, PermissionError>, sessionAllows: bool): Option<PermissionState> {
    match c
    case Err(_) => Some(Error)
    case Ok(d) =>
      match d.verdict
      case Allow => Some(Granted)
      case NotExecutable => Some(Denied)
      case _ => if sessionAllows && d.kind == Composite then Some(Granted) else None
  }

  function InitialDecision(c: Result<PermissionDecision, PermissionError>): PermissionDecision {
    if c.Ok? then c.value else PermissionDecision(Composite, [], NotExecutable)
  }

  function AfterInit(host: Host, s: State, session: Uuid, call: CallId, command: Argv, up: bool, now: nat): State {
    var c := Classified(host, s.rules, up, command);
    var result := InitialResult(c, SessionAllows(SessionOf(s, session), command));
    var evictAt := if result.Some? then Some(now + PERMISSION_EVICT_TTL_SECS) else None;
    s.(sessions := s.sessions[session := SessionOf(s, session)],
       tracker := s.tracker[call := PermissionRequest(session, InitialDecision(c), |s.cells|, command, evictAt)],
       cells := s.cells + [result])
  }

  /** Only a tracked call without a result can be decided. */
  function Guard(s: State, call: CallId): Option<WorkflowError> {
    if call !in s.tracker then Some(MissingCallerId(call))
    else if Completed(s, call) then Some(AlreadyResolved(call))
    else None
  }

  function AfterSessionDecision(s: State, session: Uuid, call: CallId, p: SessionPermission, now: nat): (State, Decision)
    requires call in s.tracker
  {
    if session in s.sessions then
      (Resolve(s.(sessions := s.sessions[session := p]), call, Granted, now), Ok(Granted))
    else
      (Resolve(s, call, Denied, now), Err(MissingSession(session)))
  }

  function AfterDecision(s: State, d: UserDecision, up: bool, now: nat): (State, Decision) {
    match Guard(s, d.call)
    case Some(error) => (s, Err(error))
    case None =>
      match d
      case AllowOnce(call) => (Resolve(s, call, Granted, now), Ok(Granted))
      case AllowRule(call, command, glob) =>
        (match Added(s.rules, command, glob, up)
         case Err(error) => (s, Err(Permission(error)))
         case Ok(rules) => (Resolve(s.(rules := rules), call, Granted, now), Ok(Granted)))
      case AllowSession(session, call) =>
        var p := SessionOf(s, session);
        AfterSessionDecision(s, session, call, p.(allowlist := p.allowlist + {Join(s.tracker[call].command)}), now)
      case IgnorePermission(session, call) =>
        AfterSessionDecision(s, session, call, SessionOf(s, session).(always := true), now)
      case Deny(call) => (Resolve(s, call, Denied, now), Ok(Denied))
  }

  function Swept(s: State, now: nat): State {
    s.(tracker := map call | call in s.tracker && (s.tracker[call].evictAt.None? || now < s.tracker[call].evictAt.value)
                  :: s.tracker[call])
  }

  function WithoutSession(s: State, session: Uuid): State {
    s.(tracker := map call | call in s.tracker && s.tracker[call].session != session :: s.tracker[call])
  }

  function AfterRemoval(s: State, session: Uuid): State {
    WithoutSession(s, session).(sessions := s.sessions - {session})
  }

  // ---------------------------------------------------------------- the options shown

  /** For a command that may not become a rule: four choices about this call and this session. */
  function UnsafeOptions(call: CallId, session: Uuid): seq<UserDecision> {
    [AllowOnce(call), AllowSession(session, call), IgnorePermission(session, call), Deny(call)]
  }

  function RuleOptions(call: CallId, argv: Argv): seq<UserDecision> {
    var prefixes := OfferedPrefixes(argv);
    seq(|prefixes|, i requires 0 <= i < |prefixes| => AllowRule(call, prefixes[i], true))
  }

  function Options(s: State, session: Uuid, call: CallId): Result<seq<UserDecision>, WorkflowError> {
    if call !in s.tracker then Err(MissingCallerId(call))
    else if Completed(s, call) then Ok([])
    else
      var d := s.tracker[call].decision;
      if d.kind == Composite || d.verdict == AskNoPersist then Ok(UnsafeOptions(call, session))
      else if d.verdict == Unknown && d.parsed != [] then
        Ok([AllowOnce(call)] + RuleOptions(call, d.parsed[0]) + [Deny(call)])
      else Ok([])
  }

  // ---------------------------------------------------------------- the manager

  class PermissionWorkflowManager {
    const controller: PermissionController
    var sessionPermission: map<Uuid, SessionPermission>
    var permissionTracker: map<CallId, PermissionRequest>
    var cells: seq<Option<PermissionState>>

    ghost function View(): State
      reads this, controller
    {
      State(sessionPermission, permissionTracker, cells, controller.rules)
    }

    constructor (controller: PermissionController)
      ensures this.controller == controller
      ensures View() == State(map[], map[], [], controller.rules)
    {
      this.controller := controller;
      sessionPermission := map[];
      permissionTracker := map[];
      cells := [];
    }

    method InitPermissionWorkflow(session: Uuid, call: CallId, command: Argv, up: bool, now: nat)
      modifies this
      ensures View() == AfterInit(controller.host, old(View()), session, call, command, up, now)
    {
      if session !in sessionPermission {
        sessionPermission := sessionPermission[session := NO_PERMISSION];
      }
      var permission := sessionPermission[session];
      var sessionAllows := permission.always || Join(command) in permission.allowlist;
      var classified := controller.Classify(command, up);
      var decision := PermissionDecision(Composite, [], NotExecutable);
      var result := Some(Error);
      if classified.Ok? {
        decision := classified.value;
        if decision.verdict == Allow {
          result := Some(Granted);
        } else if decision.verdict == NotExecutable {
          result := Some(Denied);
        } else if sessionAllows && decision.kind == Composite {
          result := Some(Granted);
        } else {
          result := None;
        }
      }
      var evictAt := if result.Some? then Some(now + PERMISSION_EVICT_TTL_SECS) else None;
      permissionTracker := permissionTracker[call := PermissionRequest(session, decision, |cells|, command, evictAt)];
      cells := cells + [result];
      assert sessionPermission == old(sessionPermission)[session := SessionOf(old(View()), session)];
    }

    method HandleCheckDecision(session: Uuid, call: CallId) returns (r: Result<seq<UserDecision>, WorkflowError>)
      requires call in permissionTracker && !Completed(View(), call)
               && permissionTracker[call].decision.verdict == Unknown
               ==> permissionTracker[call].decision.kind == Composite || permissionTracker[call].decision.parsed != []
      ensures r == Options(View(), session, call)
    {
      if call !in permissionTracker { return Err(MissingCallerId(call)); }
      var request := permissionTracker[call];
      if !(request.cell < |cells| && cells[request.cell].None?) { return Ok([]); }
      if request.decision.kind == Composite { return Ok(UnsafeOptions(call, session)); }
      match request.decision.verdict {
        case Unknown =>
          var options := [AllowOnce(call)];
          options := options + RuleOptions(call, request.decision.parsed[0]);
          options := options + [Deny(call)];
          r := Ok(options);
        case AskNoPersist => r := Ok(UnsafeOptions(call, session));
        case Allow => r := Ok([]);
        case NotExecutable => r := Ok([]);
      }
    }

    method ResolveCall(call: CallId, value: PermissionState, now: nat)
      requires call in permissionTracker
      modifies this
      ensures View() == Resolve(old(View()), call, value, now)
    {
      var request := permissionTracker[call];
      if request.cell < |cells| && cells[request.cell].None? {
        cells := cells[request.cell := Some(value)];
      }
      permissionTracker := permissionTracker[call := request.(evictAt := Some(now + PERMISSION_EVICT_TTL_SECS))];
    }

    method HandleUserDecision(d: UserDecision, up: bool, now: nat) returns (r: Decision)
      modifies this, controller
      ensures (View(), r) == AfterDecision(old(View()), d, up, now)
    {
      if d.call !in permissionTracker { return Err(MissingCallerId(d.call)); }
      var request := permissionTracker[d.call];
      if !(request.cell < |cells| && cells[request.cell].None?) { return Err(AlreadyResolved(d.call)); }
      match d {
        case AllowOnce(call) =>
          ResolveCall(call, Granted, now);
          r := Ok(Granted);
        case AllowRule(call, command, glob) =>
          var added := controller.AddPermission(command, glob, up);
          if added.Err? { return Err(Permission(StorageFailed)); }
          ResolveCall(call, Granted, now);
          r := Ok(Granted);
        case AllowSession(session, call) =>
          if session in sessionPermission {
            var permission := sessionPermission[session];
            permission := permission.(allowlist := permission.allowlist + {Join(request.command)});
            sessionPermission := sessionPermission[session := permission];
            ResolveCall(call, Granted, now);
            r := Ok(Granted);
          } else {
            ResolveCall(call, Denied, now);
            r := Err(MissingSession(session));
          }
        case IgnorePermission(session, call) =>
          if session in sessionPermission {
            sessionPermission := sessionPermission[session := sessionPermission[session].(always := true)];
            ResolveCall(call, Granted, now);
            r := Ok(Granted);
          } else {
            ResolveCall(call, Denied, now);
            r := Err(MissingSession(session));
          }
        case Deny(call) =>
          ResolveCall(call, Denied, now);
          r := Ok(Denied);
      }
    }

    method Sweep(now: nat)
      modifies this
      ensures View() == Swept(old(View()), now)
    {
      permissionTracker := map call
        | call in permissionTracker
          && (permissionTracker[call].evictAt.None? || now < permissionTracker[call].evictAt.value)
        :: permissionTracker[call];
    }

    method RemovePermission(session: Uuid)
      modifies this
      ensures View() == AfterRemoval(old(View()), session)
    {
      sessionPermission := sessionPermission - {session};
      ClearPendingPermission(session);
    }

    /** Drops every request of the session, resolved ones too, and keeps what the session was granted. */
    method ClearPendingPermission(session: Uuid)
      modifies this`permissionTracker
      ensures View() == WithoutSession(old(View()), session)
    {
      permissionTracker := map call | call in permissionTracker && permissionTracker[call].session != session
        :: permissionTracker[call];
    }
  }
}
