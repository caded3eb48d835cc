/** What holds over every run of the permission workflow, and for the tools that wait on it. */
module PermissionRuns {
  import opened Wrappers
  import opened Permissions
  import opened PermissionWorkflow

  /** What reaches the manager, the sweep, and the deletion of a stored rule, which goes past the manager. */
  datatype Event =
    | Init(session: Uuid, call: CallId, command: Argv, up: bool, now: nat)
    | Decide(d: UserDecision, up: bool, now: nat)
    | Sweep(now: nat)
    | Remove(session: Uuid)
    | Clear(session: Uuid)
    | Revoke(prefix: string)

  function Step(host: Host, s: State, e: Event): State {
    match e
    case Init(session, call, command, up, now) => AfterInit(host, s, session, call, command, up, now)
    case Decide(d, up, now) => AfterDecision(s, d, up, now).0
    case Sweep(now) => Swept(s, now)
    case Remove(session) => AfterRemoval(s, session)
    case Clear(session) => WithoutSession(s, session)
    case Revoke(prefix) => s.(rules := s.rules - {prefix})
  }

  /** The state after the first `n` events. */
  function After(host: Host, s: State, events: seq<Event>, n: nat): State
    requires n <= |events|
  {
    if n == 0 then s else Step(host, After(host, s, events, n - 1), events[n - 1])
  }

  // ---------------------------------------------------------------- the invariant

  predicate Pending(s: State, call: CallId) {
    call in s.tracker && s.tracker[call].cell < |s.cells| && s.cells[s.tracker[call].cell].None?
  }

  /** A pending command is one the user may be asked about: unknown ones are a single named program. */
  predicate Askable(host: Host, r: PermissionRequest) {
    || (r.decision.verdict == AskNoPersist)
    || (r.decision.verdict == Unknown && r.decision.kind == Simple && |r.decision.parsed| == 1
        && Classified(host, map[], true, r.command) == Ok(r.decision))
  }

  predicate CallInv(host: Host, s: State, call: CallId)
    requires call in s.tracker
  {
    var r := s.tracker[call];
    && r.cell < |s.cells|
    && (s.cells[r.cell].None? <==> r.evictAt.None?)
    && r.session in s.sessions
    && (r.decision.verdict == NotExecutable ==> s.cells[r.cell] == Some(Denied) || s.cells[r.cell] == Some(Error))
    && (s.cells[r.cell].None? ==> Askable(host, r))
  }

  ghost predicate Inv(host: Host, s: State) {
    && (forall call | call in s.tracker :: CallInv(host, s, call))
    && (forall a, b | a in s.tracker && b in s.tracker && a != b :: s.tracker[a].cell != s.tracker[b].cell)
  }

  lemma UnknownUnderNoRules(host: Host, rules: Rules, up: bool, command: Argv)
    requires var c := Classified(host, rules, up, command); c.Ok? && c.value.verdict == Unknown
    ensures Classified(host, map[], true, command) == Classified(host, rules, up, command)
  {
    UnknownIsOneProgram(host, rules, up, command);
  }

  lemma InitKeeps(host: Host, s: State, session: Uuid, call: CallId, command: Argv, up: bool, now: nat)
    requires Inv(host, s)
    ensures Inv(host, AfterInit(host, s, session, call, command, up, now))
  {
    var c := Classified(host, s.rules, up, command);
    var after := AfterInit(host, s, session, call, command, up, now);
    if c.Ok? {
      UnknownIsOneProgram(host, s.rules, up, command);
      if c.value.verdict == Unknown {
        UnknownUnderNoRules(host, s.rules, up, command);
      }
    }
    assert CallInv(host, after, call);
    forall other | other in after.tracker && other != call ensures CallInv(host, after, other) {
      assert CallInv(host, s, other);
    }
  }

  lemma ResolveKeeps(host: Host, s: State, call: CallId, value: PermissionState, now: nat)
    requires Inv(host, s) && Pending(s, call)
    ensures Inv(host, Resolve(s, call, value, now))
  {
    var after := Resolve(s, call, value, now);
    assert CallInv(host, s, call);
    forall other | other in after.tracker ensures CallInv(host, after, other) {
      assert CallInv(host, s, other);
    }
  }

  lemma DecisionKeeps(host: Host, s: State, d: UserDecision, up: bool, now: nat)
    requires Inv(host, s)
    ensures Inv(host, AfterDecision(s, d, up, now).0)
  {
    if Guard(s, d.call).None? {
      var r := s.tracker[d.call];
      assert CallInv(host, s, d.call);
      match d {
        case AllowOnce(call) => ResolveKeeps(host, s, call, Granted, now);
        case Deny(call) => ResolveKeeps(host, s, call, Denied, now);
        case AllowRule(call, command, glob) =>
          var added := Added(s.rules, command, glob, up);
          if added.Ok? {
            SameCalls(host, s, s.(rules := added.value));
            ResolveKeeps(host, s.(rules := added.value), call, Granted, now);
          }
        case AllowSession(session, call) =>
          var p := SessionOf(s, session);
          SessionDecisionKeeps(host, s, session, call, p.(allowlist := p.allowlist + {Join(r.command)}), now);
        case IgnorePermission(session, call) =>
          SessionDecisionKeeps(host, s, session, call, SessionOf(s, session).(always := true), now);
      }
    }
  }

  lemma SameCalls(host: Host, s: State, t: State)
    requires Inv(host, s) && t.tracker == s.tracker && t.cells == s.cells && s.sessions.Keys <= t.sessions.Keys
    ensures Inv(host, t)
  {
    forall call | call in t.tracker ensures CallInv(host, t, call) {
      assert CallInv(host, s, call);
    }
  }

  lemma SessionDecisionKeeps(host: Host, s: State, session: Uuid, call: CallId, p: SessionPermission, now: nat)
    requires Inv(host, s) && Pending(s, call)
    ensures Inv(host, AfterSessionDecision(s, session, call, p, now).0)
  {
    if session in s.sessions {
      var t := s.(sessions := s.sessions[session := p]);
      SameCalls(host, s, t);
      ResolveKeeps(host, t, call, Granted, now);
    } else {
      ResolveKeeps(host, s, call, Denied, now);
    }
  }

  lemma StepKeeps(host: Host, s: State, e: Event)
    requires Inv(host, s)
    ensures Inv(host, Step(host, s, e))
  {
    match e {
      case Init(session, call, command, up, now) => InitKeeps(host, s, session, call, command, up, now);
      case Decide(d, up, now) => DecisionKeeps(host, s, d, up, now);
      case _ =>
        var after := Step(host, s, e);
        forall call | call in after.tracker ensures CallInv(host, after, call) {
          assert CallInv(host, s, call);
        }
    }
  }

  lemma {:induction false} RunKeeps(host: Host, s: State, events: seq<Event>, n: nat)
    requires Inv(host, s) && n <= |events|
    ensures Inv(host, After(host, s, events, n))
  {
    if n > 0 {
      RunKeeps(host, s, events, n - 1);
      StepKeeps(host, After(host, s, events, n - 1), events[n - 1]);
    }
  }

  /** Every state reached from a manager just started: a call is pending just when it has no eviction
      deadline, its session has an entry, and one that cannot be executed was refused. */
  lemma {:induction false} ReachableInv(host: Host, rules: Rules, events: seq<Event>, call: CallId)
    requires call in After(host, State(map[], map[], [], rules), events, |events|).tracker
    ensures var s := After(host, State(map[], map[], [], rules), events, |events|);
            var r := s.tracker[call];
            && (Pending(s, call) <==> r.evictAt.None?)
            && r.session in s.sessions
            && r.cell < |s.cells|
            && (r.decision.verdict == NotExecutable ==> s.cells[r.cell] == Some(Denied) || s.cells[r.cell] == Some(Error))
  {
    var start := State(map[], map[], [], rules);
    RunKeeps(host, start, events, |events|);
    assert CallInv(host, After(host, start, events, |events|), call);
  }

  // ---------------------------------------------------------------- results

  /** A decision naming the call, while the call holds this future, that is answered with a grant. */
  predicate Grants(s: State, e: Event, call: CallId, cell: nat) {
    && e.Decide? && e.d.call == call
    && call in s.tracker && s.tracker[call].cell == cell
    && AfterDecision(s, e.d, e.up, e.now).1 == Ok(Granted)
  }

  predicate Owned(s: State, cell: nat, call: CallId) {
    cell < |s.cells| && forall other | other in s.tracker && s.tracker[other].cell == cell :: other == call
  }

  /** From one state to another a result has not changed, and a pending future is granted just if `granted`. */
  predicate Settles(s: State, t: State, granted: bool, call: CallId, cell: nat) {
    && Owned(s, cell, call) && Owned(t, cell, call)
    && (s.cells[cell].Some? ==> t.cells[cell] == s.cells[cell])
    && (s.cells[cell].None? ==> (t.cells[cell] == Some(Granted) <==> granted))
  }

  lemma SettlesOn(s: State, b: State, t: State, first: bool, second: bool, call: CallId, cell: nat)
    requires Settles(s, b, first, call, cell) && Settles(b, t, second, call, cell)
    requires second ==> b.cells[cell].None?
    ensures Settles(s, t, first || second, call, cell)
  {
  }

  lemma ResolveSettles(s: State, named: CallId, value: PermissionState, now: nat, call: CallId, cell: nat)
    requires Owned(s, cell, call) && Pending(s, named)
    ensures Settles(s, Resolve(s, named, value, now), value == Granted && s.tracker[named].cell == cell, call, cell)
  {
  }

  lemma DecisionSettles(s: State, d: UserDecision, up: bool, now: nat, call: CallId, cell: nat)
    requires Owned(s, cell, call) && Guard(s, d.call).None?
    ensures Settles(s, AfterDecision(s, d, up, now).0, Grants(s, Decide(d, up, now), call, cell), call, cell)
    ensures AfterDecision(s, d, up, now).1 == Ok(Granted) ==> Pending(s, d.call)
  {
    match d {
      case AllowOnce(named) => ResolveSettles(s, named, Granted, now, call, cell);
      case Deny(named) => ResolveSettles(s, named, Denied, now, call, cell);
      case AllowRule(named, command, glob) =>
        var added := Added(s.rules, command, glob, up);
        if added.Ok? {
          ResolveSettles(s.(rules := added.value), named, Granted, now, call, cell);
        }
      case AllowSession(session, named) =>
        var p := SessionOf(s, session);
        SessionSettles(s, session, named, p.(allowlist := p.allowlist + {Join(s.tracker[named].command)}), now, call, cell);
      case IgnorePermission(session, named) =>
        SessionSettles(s, session, named, SessionOf(s, session).(always := true), now, call, cell);
    }
  }

  lemma SessionSettles(s: State, session: Uuid, named: CallId, p: SessionPermission, now: nat, call: CallId, cell: nat)
    requires Owned(s, cell, call) && Pending(s, named)
    ensures Settles(s, AfterSessionDecision(s, session, named, p, now).0,
                    session in s.sessions && s.tracker[named].cell == cell, call, cell)
  {
    if session in s.sessions {
      ResolveSettles(s.(sessions := s.sessions[session := p]), named, Granted, now, call, cell);
    } else {
      ResolveSettles(s, named, Denied, now, call, cell);
    }
  }

  lemma StepSettles(host: Host, s: State, e: Event, call: CallId, cell: nat)
    requires Owned(s, cell, call)
    ensures Settles(s, Step(host, s, e), Grants(s, e, call, cell), call, cell)
    ensures Grants(s, e, call, cell) ==> s.cells[cell].None?
  {
    match e {
      case Decide(d, up, now) =>
        if Guard(s, d.call).None? {
          DecisionSettles(s, d, up, now, call, cell);
        }
      case _ =>
    }
  }

  /** Some event up to `n` granted the call while it held this future. */
  predicate GrantedBy(host: Host, s: State, events: seq<Event>, n: nat, call: CallId, cell: nat)
    requires n <= |events|
  {
    n > 0 && (GrantedBy(host, s, events, n - 1, call, cell)
              || Grants(After(host, s, events, n - 1), events[n - 1], call, cell))
  }

  lemma {:induction false} RunSettles(host: Host, s: State, events: seq<Event>, n: nat, call: CallId, cell: nat)
    requires n <= |events| && Owned(s, cell, call)
    ensures Settles(s, After(host, s, events, n), GrantedBy(host, s, events, n, call, cell), call, cell)
  {
    if n > 0 {
      var before := After(host, s, events, n - 1);
      RunSettles(host, s, events, n - 1, call, cell);
      StepSettles(host, before, events[n - 1], call, cell);
      SettlesOn(s, before, After(host, s, events, n), GrantedBy(host, s, events, n - 1, call, cell),
                Grants(before, events[n - 1], call, cell), call, cell);
    }
  }

  /** What the session was granted lets a call start: one that would be asked about and is not a single
      command. */
  predicate BySession(host: Host, s: State, init: Event)
    requires init.Init?
  {
    && !Unjudged(host, init.up, init.command) && !Refused(host, init.up, init.command) && !Single(host, init.command)
    && SessionAllows(SessionOf(s, init.session), init.command)
  }

  /** A call starts granted just when nobody need be asked about its command or the session allows it,
      denied just when it is refused, failed just when it cannot be judged, and pending otherwise. */
  lemma {:induction false} StartsIff(host: Host, s: State, init: Event)
    requires init.Init?
    ensures var t := Step(host, s, init);
            && t.tracker[init.call].cell == |s.cells| && |t.cells| == |s.cells| + 1 && t.cells[..|s.cells|] == s.cells
            && var r := t.cells[|s.cells|];
               && (r == Some(Granted) <==> Unasked(host, s.rules, init.up, init.command) || BySession(host, s, init))
               && (r == Some(Denied) <==> Refused(host, init.up, init.command))
               && (r == Some(Error) <==> Unjudged(host, init.up, init.command))
  {
    OutcomeIff(host, s.rules, init.up, init.command);
  }

  /** The future of a call just started is its own. */
  lemma FreshCell(host: Host, s: State, init: Event)
    requires Inv(host, s) && init.Init?
    ensures Owned(Step(host, s, init), |s.cells|, init.call)
  {
    forall other | other in s.tracker ensures s.tracker[other].cell < |s.cells| {
      assert CallInv(host, s, other);
    }
  }

  /** A call is granted, in the end, just when it started granted, or started pending and a later decision
      named that very call and was answered with a grant. */
  lemma {:induction false} GrantedIff(host: Host, s: State, init: Event, events: seq<Event>)
    requires Inv(host, s) && init.Init?
    ensures var first, cell := Step(host, s, init), |s.cells|;
            var last := After(host, first, events, |events|);
            && first.tracker[init.call].cell == cell < |last.cells|
            && (last.cells[cell] == Some(Granted)
                <==> || Unasked(host, s.rules, init.up, init.command) || BySession(host, s, init)
                     || (first.cells[cell].None? && GrantedBy(host, first, events, |events|, init.call, cell)))
  {
    var first, cell := Step(host, s, init), |s.cells|;
    FreshCell(host, s, init);
    RunSettles(host, first, events, |events|, init.call, cell);
    StartsIff(host, s, init);
  }

  /** A single command that is not harmless is granted only by the user, for this call. */
  lemma {:induction false} SimpleNeedsItsOwnGrant(host: Host, s: State, init: Event, events: seq<Event>)
    requires Inv(host, s) && init.Init? && Single(host, init.command)
    requires !Harmless(host, s.rules, init.up, Judged(host, init.command).value[0])
    ensures var first, cell := Step(host, s, init), |s.cells|;
            var last := After(host, first, events, |events|);
            cell < |last.cells| && (last.cells[cell] == Some(Granted) ==> GrantedBy(host, first, events, |events|, init.call, cell))
  {
    GrantedIff(host, s, init, events);
  }

  /** What is refused, or cannot be judged, is denied or failed for good, whatever the user decides later. */
  lemma {:induction false} RefusedStaysRefused(host: Host, s: State, init: Event, events: seq<Event>)
    requires Inv(host, s) && init.Init?
    requires Unjudged(host, init.up, init.command) || Refused(host, init.up, init.command)
    ensures var last := After(host, Step(host, s, init), events, |events|);
            |s.cells| < |last.cells|
            && last.cells[|s.cells|] == Some(if Refused(host, init.up, init.command) then Denied else Error)
  {
    var first, cell := Step(host, s, init), |s.cells|;
    StartsIff(host, s, init);
    FreshCell(host, s, init);
    RunSettles(host, first, events, |events|, init.call, cell);
  }

  // ---------------------------------------------------------------- waiting for the user

  predicate Touches(e: Event, call: CallId, session: Uuid) {
    match e
    case Init(_, other, _, _, _) => other == call
    case Decide(d, _, _) => d.call == call
    case Sweep(_) => false
    case Remove(other) => other == session
    case Clear(other) => other == session
    case Revoke(_) => false
  }

  /** `call` is still pending in `t`, as it was in `s`. */
  predicate StillWaits(s: State, t: State, call: CallId) {
    Pending(s, call) && Pending(t, call) && t.tracker[call] == s.tracker[call]
  }

  /** A pending call waits for ever: no sweep and nothing about other calls or sessions drops it. */
  lemma {:induction false} PendingWaits(host: Host, s: State, events: seq<Event>, n: nat, call: CallId)
    requires Inv(host, s) && Pending(s, call) && n <= |events|
    requires forall i | 0 <= i < n :: !Touches(events[i], call, s.tracker[call].session)
    ensures StillWaits(s, After(host, s, events, n), call)
  {
    if n > 0 {
      PendingWaits(host, s, events, n - 1, call);
      WaitRunStep(host, s, events, n - 1, call);
      WaitsOn(s, After(host, s, events, n - 1), After(host, s, events, n), call);
    }
  }

  lemma WaitRunStep(host: Host, s: State, events: seq<Event>, n: nat, call: CallId)
    requires Inv(host, s) && n < |events| && Pending(After(host, s, events, n), call)
    requires !Touches(events[n], call, After(host, s, events, n).tracker[call].session)
    ensures StillWaits(After(host, s, events, n), After(host, s, events, n + 1), call)
  {
    RunKeeps(host, s, events, n);
    WaitStep(host, After(host, s, events, n), events[n], call);
  }

  lemma WaitsOn(s: State, b: State, t: State, call: CallId)
    requires StillWaits(s, b, call) && StillWaits(b, t, call)
    ensures StillWaits(s, t, call)
  {
  }

  lemma WaitStep(host: Host, s: State, e: Event, call: CallId)
    requires Inv(host, s) && Pending(s, call) && !Touches(e, call, s.tracker[call].session)
    ensures StillWaits(s, Step(host, s, e), call)
  {
    match e {
      case Decide(d, up, now) =>
        if Guard(s, d.call).None? {
          assert s.tracker[d.call].cell != s.tracker[call].cell;
          DecisionSpares(s, d, up, now, call);
        }
      case _ =>
        assert CallInv(host, s, call);
    }
  }

  lemma DecisionSpares(s: State, d: UserDecision, up: bool, now: nat, call: CallId)
    requires Guard(s, d.call).None? && Pending(s, call) && d.call != call && s.tracker[d.call].cell != s.tracker[call].cell
    ensures StillWaits(s, AfterDecision(s, d, up, now).0, call)
  {
  }

  // ---------------------------------------------------------------- the options shown

  /** Every option shown for a session's own call can be chosen, does what it says, and leaves nothing to
      choose; saving a rule needs the database. */
  lemma OptionsWork(host: Host, s: State, call: CallId, d: UserDecision, up: bool, now: nat)
    requires Inv(host, s) && call in s.tracker
    requires d in Options(s, s.tracker[call].session, call).value
    ensures var (after, answer) := AfterDecision(s, d, up, now);
            if d.AllowRule? && !up then after == s && answer == Err(Permission(StorageFailed))
            else answer == Ok(if d.Deny? then Denied else Granted)
                 && after.cells[s.tracker[call].cell] == Some(if d.Deny? then Denied else Granted)
                 && Options(after, s.tracker[call].session, call) == Ok([])
  {
    assert CallInv(host, s, call);
    OptionsNameTheCall(host, s, s.tracker[call].session, call, d);
  }

  /** Options are shown only for a pending call and name it; a rule is offered only for an unknown simple
      command, and then it is one of those its program suggests, with continuations. */
  lemma OptionsNameTheCall(host: Host, s: State, session: Uuid, call: CallId, d: UserDecision)
    requires Inv(host, s) && call in s.tracker && d in Options(s, session, call).value
    ensures Pending(s, call) && d.call == call
    ensures d.AllowSession? || d.IgnorePermission? ==> d.session == session
    ensures d.AllowRule? ==>
              var decision := s.tracker[call].decision;
              && decision.verdict == Unknown && decision.kind == Simple
              && Classified(host, map[], true, s.tracker[call].command) == Ok(decision)
              && decision.parsed[0] != [] && decision.parsed[0][0] != ""
              && d.command in OfferedPrefixes(decision.parsed[0]) && d.command != "" && d.glob
  {
    assert CallInv(host, s, call);
    var r := s.tracker[call];
    if r.decision.verdict == Unknown {
      UnknownIsOneProgram(host, map[], true, r.command);
      var argv := r.decision.parsed[0];
      var options := [AllowOnce(call)] + RuleOptions(call, argv) + [Deny(call)];
      var i :| 0 <= i < |options| && options[i] == d;
      if d.AllowRule? {
        assert d == RuleOptions(call, argv)[i - 1];
        OfferCovers(argv, d.command);
      }
    }
  }

  /** The options of a pending call, all of them: to allow or deny it once always; for the session, or for
      all its commands of several, unless it is one unknown program; and a lasting rule, covering
      continuations, just for such a program and its offered prefixes. The first allows, the last denies. */
  lemma {:induction false} OptionsAre(host: Host, s: State, session: Uuid, call: CallId, d: UserDecision)
    requires Inv(host, s) && Pending(s, call)
    ensures var options, decision := Options(s, session, call).value, s.tracker[call].decision;
            && (d in options <==>
                  || d == AllowOnce(call) || d == Deny(call)
                  || (decision.verdict != Unknown && (d == AllowSession(session, call) || d == IgnorePermission(session, call)))
                  || (decision.verdict == Unknown && d.AllowRule? && d.call == call && d.glob
                      && d.command in OfferedPrefixes(decision.parsed[0])))
            && options[0] == AllowOnce(call) && options[|options| - 1] == Deny(call)
  {
    assert CallInv(host, s, call);
    var decision := s.tracker[call].decision;
    if decision.verdict == Unknown {
      var prefixes := OfferedPrefixes(decision.parsed[0]);
      var rules := RuleOptions(call, decision.parsed[0]);
      var options := [AllowOnce(call)] + rules + [Deny(call)];
      assert d in rules <==> d.AllowRule? && d.call == call && d.glob && d.command in prefixes by {
        if d.AllowRule? && d.call == call && d.glob && d.command in prefixes {
          var i :| 0 <= i < |prefixes| && prefixes[i] == d.command;
          assert rules[i] == d;
        }
      }
      assert d in options <==> d == AllowOnce(call) || d in rules || d == Deny(call);
    }
  }

  /** A decision about a pending call fails for want of a session entry just when it names a session that
      has none; the session the call belongs to always has one. */
  lemma MissingSessionIff(host: Host, s: State, d: UserDecision, up: bool, now: nat, session: Uuid)
    requires Inv(host, s) && Pending(s, d.call)
    ensures AfterDecision(s, d, up, now).1 == Err(MissingSession(session))
       <==> (d.AllowSession? || d.IgnorePermission?) && d.session == session && session !in s.sessions
    ensures s.tracker[d.call].session in s.sessions
  {
    assert CallInv(host, s, d.call);
  }

  /** What a decision leaves behind beyond its own call: only a chosen rule is saved, and only the session
      named is granted anything, the one command or all of them. */
  lemma {:induction false} DecisionGrantsOnly(s: State, d: UserDecision, up: bool, now: nat, session: Uuid, command: Argv)
    ensures var (after, answer) := AfterDecision(s, d, up, now);
            && after.rules == (if d.AllowRule? && answer == Ok(Granted) then s.rules[d.command := d.glob] else s.rules)
            && after.tracker.Keys == s.tracker.Keys
            && (SessionAllows(SessionOf(after, session), command)
                <==> || SessionAllows(SessionOf(s, session), command)
                     || (answer == Ok(Granted) && d.IgnorePermission? && d.session == session)
                     || (answer == Ok(Granted) && d.AllowSession? && d.session == session
                         && Join(command) == Join(s.tracker[d.call].command)))
            && (answer.Err? && answer.error.MissingSession? && s.tracker[d.call].cell < |s.cells| ==>
                  after.cells[s.tracker[d.call].cell] == Some(Denied))
  {
  }

  // ---------------------------------------------------------------- the approval loop

  /** Every rule saved along the run covers continuations, as the offered ones do, and none is revoked. */
  predicate Widens(e: Event) {
    !e.Revoke? && (e.Decide? && e.d.AllowRule? ==> e.d.glob)
  }

  lemma StepWidens(host: Host, s: State, e: Event)
    requires Widens(e)
    ensures Wider(Step(host, s, e).rules, s.rules)
  {
    if e.Decide? && e.d.AllowRule? {
      GlobOnlyWidens(s.rules, e.d.command);
    } else {
      assert Step(host, s, e).rules == s.rules;
    }
  }

  /** While only such rules are saved, the set of allowed commands never shrinks. */
  lemma {:induction false} RunWidens(host: Host, s: State, events: seq<Event>, n: nat)
    requires n <= |events| && forall i | 0 <= i < n :: Widens(events[i])
    ensures Wider(After(host, s, events, n).rules, s.rules)
  {
    if n > 0 {
      RunWidens(host, s, events, n - 1);
      StepWidens(host, After(host, s, events, n - 1), events[n - 1]);
      WiderOn(After(host, s, events, n).rules, After(host, s, events, n - 1).rules, s.rules);
    }
  }

  lemma WiderOn(a: Rules, b: Rules, c: Rules)
    requires Wider(a, b) && Wider(b, c)
    ensures Wider(a, c)
  {
  }

  /** Neither a revocation of the rule nor an exact rule saved in its place. */
  predicate Spares(e: Event, prefix: string) {
    e != Revoke(prefix) && (e.Decide? && e.d.AllowRule? && e.d.command == prefix ==> e.d.glob)
  }

  lemma RuleSpared(host: Host, s: State, e: Event, prefix: string)
    requires prefix in s.rules && s.rules[prefix] && Spares(e, prefix)
    ensures var t := Step(host, s, e); prefix in t.rules && t.rules[prefix]
  {
  }

  lemma {:induction false} RuleStays(host: Host, s: State, events: seq<Event>, n: nat, prefix: string)
    requires prefix in s.rules && s.rules[prefix] && n <= |events|
    requires forall i | 0 <= i < n :: Spares(events[i], prefix)
    ensures var t := After(host, s, events, n); prefix in t.rules && t.rules[prefix]
  {
    if n > 0 {
      RuleStays(host, s, events, n - 1, prefix);
      RuleSpared(host, After(host, s, events, n - 1), events[n - 1], prefix);
    }
  }

  /** A pending unknown command, asked again after any events at all, starts granted in any session just
      when a rule then covers it; otherwise the user is asked. */
  lemma {:induction false} AskedAgainIff(host: Host, s: State, call: CallId, events: seq<Event>, again: Event)
    requires Inv(host, s) && Pending(s, call) && s.tracker[call].decision.verdict == Unknown
    requires again.Init? && again.command == s.tracker[call].command && again.up
    ensures |s.tracker[call].decision.parsed| == 1
    ensures var later := After(host, s, events, |events|);
            var covered := Allowed(later.rules, Join(s.tracker[call].decision.parsed[0]));
            Step(host, later, again).cells == later.cells + [if covered then Some(Granted) else None]
  {
    assert CallInv(host, s, call);
    AllowedIffCovered(host, map[], true, again.command, After(host, s, events, |events|).rules);
  }

  /** Choosing a rule that was offered closes the loop: whatever happens next, as long as that rule is
      neither revoked nor narrowed, the same command starts granted in any session, and nobody is asked. */
  lemma {:induction false} ApprovalLoop(host: Host, s: State, session: Uuid, call: CallId, d: UserDecision, now: nat,
                     events: seq<Event>, again: Event)
    requires Inv(host, s) && call in s.tracker
    requires d.AllowRule? && d in Options(s, session, call).value
    requires forall i | 0 <= i < |events| :: Spares(events[i], d.command)
    requires again.Init? && again.command == s.tracker[call].command && again.up
    ensures AfterDecision(s, d, true, now).1 == Ok(Granted)
    ensures var later := After(host, AfterDecision(s, d, true, now).0, events, |events|);
            var asked := Step(host, later, again);
            && asked.cells == later.cells + [Some(Granted)]
            && asked.tracker[again.call].cell == |later.cells|
            && Options(asked, again.session, again.call) == Ok([])
  {
    OptionsNameTheCall(host, s, session, call, d);
    var after := AfterDecision(s, d, true, now).0;
    assert after.rules == s.rules[d.command := true];
    RuleStays(host, after, events, |events|, d.command);
    var later := After(host, after, events, |events|);
    ApprovalCloses(host, map[], true, again.command, d.command, s.rules, later.rules);
    InitGranted(host, later, again);
  }

  lemma InitGranted(host: Host, s: State, init: Event)
    requires init.Init?
    requires var c := Classified(host, s.rules, init.up, init.command);
             InitialResult(c, SessionAllows(SessionOf(s, init.session), init.command)) == Some(Granted)
    ensures var t := Step(host, s, init);
            && t.cells == s.cells + [Some(Granted)] && t.tracker[init.call].cell == |s.cells|
            && Options(t, init.session, init.call) == Ok([])
  {
  }

  // ---------------------------------------------------------------- the session bypass

  /** What a session has been granted is kept until the session is removed. */
  lemma {:induction false} SessionGrantKept(host: Host, s: State, events: seq<Event>, n: nat, session: Uuid)
    requires session in s.sessions && n <= |events|
    requires forall i | 0 <= i < n :: events[i] != Remove(session)
    ensures KeepsGrants(s, After(host, s, events, n), session)
  {
    if n > 0 {
      SessionGrantKept(host, s, events, n - 1, session);
      GrantStep(host, After(host, s, events, n - 1), events[n - 1], session);
    }
  }

  predicate KeepsGrants(s: State, t: State, session: Uuid) {
    && session in s.sessions && session in t.sessions
    && (s.sessions[session].always ==> t.sessions[session].always)
    && s.sessions[session].allowlist <= t.sessions[session].allowlist
  }

  lemma GrantStep(host: Host, s: State, e: Event, session: Uuid)
    requires session in s.sessions && e != Remove(session)
    ensures KeepsGrants(s, Step(host, s, e), session)
  {
  }

  /** Granting a composite for the session lets the same command run there unasked from then on, and
      ignoring permissions lets every composite, unless it cannot be executed; until the session is removed. */
  lemma {:induction false} SessionBypass(host: Host, s: State, d: UserDecision, up: bool, now: nat, events: seq<Event>, again: Event)
    requires Inv(host, s)
    requires (d.AllowSession? || d.IgnorePermission?) && AfterDecision(s, d, up, now).1 == Ok(Granted)
    requires forall i | 0 <= i < |events| :: events[i] != Remove(d.session)
    requires again.Init? && again.session == d.session
    requires d.AllowSession? ==> Join(again.command) == Join(s.tracker[d.call].command)
    requires var later := After(host, AfterDecision(s, d, up, now).0, events, |events|);
             var c := Classified(host, later.rules, again.up, again.command);
             c.Ok? && c.value.kind == Composite && c.value.verdict != NotExecutable
    ensures var later := After(host, AfterDecision(s, d, up, now).0, events, |events|);
            var asked := Step(host, later, again);
            && asked.cells == later.cells + [Some(Granted)]
            && Options(asked, again.session, again.call) == Ok([])
  {
    var after := AfterDecision(s, d, up, now).0;
    assert SessionAllows(after.sessions[d.session], again.command);
    SessionGrantKept(host, after, events, |events|, d.session);
    InitGranted(host, After(host, after, events, |events|), again);
  }

  // ---------------------------------------------------------------- tools that wait

  datatype Refusal = InvalidArguments | UnknownTool | Unavailable | DeniedByUser | NotValidated | Cancelled

  /** What a tool call learns before it waits: a refusal, or the future to wait on. */
  function StartTool(s: State, argumentsParse: bool, known: bool, call: CallId): Result<nat, Refusal> {
    if !argumentsParse then Err(InvalidArguments)
    else if !known then Err(UnknownTool)
    else if call !in s.tracker then Err(Unavailable)
    else Ok(s.tracker[call].cell)
  }

  /** What waiting on a future gives: nothing yet, permission to run, or a refusal. A future whose request
      was dropped without a value is cancelled. */
  function Awaited(s: State, cell: nat): Option<Result<(), Refusal>>
    requires cell < |s.cells|
  {
    match s.cells[cell]
    case Some(Granted) => Some(Ok(()))
    case Some(Denied) => Some(Err(DeniedByUser))
    case Some(Error) => Some(Err(NotValidated))
    case None => if exists call | call in s.tracker :: s.tracker[call].cell == cell then None else Some(Err(Cancelled))
  }

  /** What was awaited in `s` is not taken back in `t`. */
  predicate Final(s: State, t: State, cell: nat) {
    && cell < |s.cells| <= |t.cells|
    && (Awaited(s, cell).Some? ==> Awaited(t, cell) == Awaited(s, cell))
  }

  lemma DecisionFinal(host: Host, s: State, d: UserDecision, up: bool, now: nat, cell: nat)
    requires Guard(s, d.call).None? && cell < |s.cells|
    ensures Final(s, AfterDecision(s, d, up, now).0, cell)
  {
    var t := AfterDecision(s, d, up, now).0;
    assert t.tracker.Keys == s.tracker.Keys;
    assert forall call | call in t.tracker :: t.tracker[call].cell == s.tracker[call].cell;
  }

  lemma FinalStep(host: Host, s: State, e: Event, cell: nat)
    requires cell < |s.cells|
    ensures Final(s, Step(host, s, e), cell)
  {
    var t := Step(host, s, e);
    match e {
      case Decide(d, up, now) =>
        if Guard(s, d.call).None? {
          DecisionFinal(host, s, d, up, now, cell);
        }
      case Init(_, call, _, _, _) =>
        assert forall other | other in t.tracker && other != call :: other in s.tracker && t.tracker[other] == s.tracker[other];
        assert t.cells[cell] == s.cells[cell];
      case _ =>
        assert forall other | other in t.tracker :: other in s.tracker && t.tracker[other] == s.tracker[other];
    }
  }

  /** A tool that was let run, refused or cancelled stays so, whatever happens to its request afterwards. */
  lemma {:induction false} AwaitedIsFinal(host: Host, s: State, events: seq<Event>, n: nat, cell: nat)
    requires cell < |s.cells| && n <= |events|
    ensures Final(s, After(host, s, events, n), cell)
  {
    if n > 0 {
      AwaitedIsFinal(host, s, events, n - 1, cell);
      FinalStep(host, After(host, s, events, n - 1), events[n - 1], cell);
    }
  }

  /** A tool that started to wait runs, in the end, just when its own call was granted: by classification,
      by the session's grant, or by a decision naming it while it was pending. */
  lemma {:induction false} ToolRunsIff(host: Host, s: State, init: Event, events: seq<Event>, waits: nat)
    requires Inv(host, s) && init.Init? && waits <= |events|
    requires StartTool(After(host, Step(host, s, init), events, waits), true, true, init.call) == Ok(|s.cells|)
    ensures var first := Step(host, s, init);
            var last := After(host, first, events, |events|);
            |s.cells| < |last.cells| &&
            (Awaited(last, |s.cells|) == Some(Ok(()))
             <==> || Unasked(host, s.rules, init.up, init.command) || BySession(host, s, init)
                  || (first.cells[|s.cells|].None? && GrantedBy(host, first, events, |events|, init.call, |s.cells|)))
  {
    GrantedIff(host, s, init, events);
  }

  /** A tool waits on its own call's future from the moment the call is tracked; before that, and when its
      arguments or its name mean nothing, it is refused at once, and waits for nobody. */
  lemma ToolWaitsIff(host: Host, s: State, init: Event, argumentsParse: bool, known: bool, other: CallId)
    requires init.Init? && other != init.call
    ensures var t := Step(host, s, init);
            && (StartTool(t, argumentsParse, known, init.call) == Ok(|s.cells|) <==> argumentsParse && known)
            && (StartTool(t, argumentsParse, known, init.call) == Err(InvalidArguments) <==> !argumentsParse)
            && (StartTool(t, argumentsParse, known, init.call) == Err(UnknownTool) <==> argumentsParse && !known)
            && StartTool(t, argumentsParse, known, other) == StartTool(s, argumentsParse, known, other)
            && (StartTool(s, true, true, other) == Err(Unavailable) <==> other !in s.tracker)
  {
  }

  /** What a waiting tool is told when it may not run: that the user, or the refusal of its command, denied
      it; that its command could not be judged; or that its request was dropped while it waited. */
  lemma {:induction false} ToolToldWhy(host: Host, s: State, call: CallId, d: UserDecision, init: Event, gone: Event)
    requires Inv(host, s) && Pending(s, call)
    requires d == Deny(call) && init.Init? && (gone == Remove(s.tracker[call].session) || gone == Clear(s.tracker[call].session))
    ensures Awaited(s, s.tracker[call].cell).None?
    ensures Awaited(AfterDecision(s, d, true, 0).0, s.tracker[call].cell) == Some(Err(DeniedByUser))
    ensures Awaited(Step(host, s, gone), s.tracker[call].cell) == Some(Err(Cancelled))
    ensures Refused(host, init.up, init.command) ==> Awaited(Step(host, s, init), |s.cells|) == Some(Err(DeniedByUser))
    ensures Unjudged(host, init.up, init.command) ==> Awaited(Step(host, s, init), |s.cells|) == Some(Err(NotValidated))
  {
    StartsIff(host, s, init);
    assert CallInv(host, s, call);
    var t := Step(host, s, gone);
    forall other | other in t.tracker ensures t.tracker[other].cell != s.tracker[call].cell {
      assert other in s.tracker && other != call;
    }
  }

  // ---------------------------------------------------------------- what stays and what goes

  /** The time at which the event completes the call, if it does. */
  predicate Completes(host: Host, s: State, e: Event, call: CallId) {
    || (e.Init? && e.call == call && Step(host, s, e).cells[|s.cells|].Some?)
    || (e.Decide? && e.d.call == call && Pending(s, call)
        && (AfterDecision(s, e.d, e.up, e.now).1.Ok? || AfterDecision(s, e.d, e.up, e.now).1.error.MissingSession?))
  }

  /** A request completed at some time is kept by every sweep less than ten minutes later, and dropped by
      any other. */
  lemma {:induction false} KeptTenMinutes(host: Host, s: State, e: Event, call: CallId, now: nat)
    requires Inv(host, s)
    requires (e.Init? && e.call == call) || (e.Decide? && e.d.call == call)
    requires e.Init? || Pending(s, call)
    requires Completes(host, s, e, call)
    ensures var t := Step(host, s, e);
            && call in t.tracker
            && (call in Step(host, t, Sweep(now)).tracker <==> now < e.now + 10 * 60)
  {
  }

  /** Removing a session takes its requests and all it was granted, and nothing else: a command of several
      that the session allowed is asked about again. Clearing takes the requests only. */
  lemma {:induction false} RemovalForgets(host: Host, s: State, session: Uuid, again: Event)
    requires Inv(host, s) && again.Init? && again.session == session
    ensures var t := Step(host, s, Remove(session));
            && t.cells == s.cells && t.rules == s.rules
            && (forall call :: call in t.tracker <==> call in s.tracker && s.tracker[call].session != session)
            && (forall call | call in t.tracker :: t.tracker[call] == s.tracker[call])
            && (forall other :: other in t.sessions <==> other in s.sessions && other != session)
            && (forall other | other in t.sessions :: t.sessions[other] == s.sessions[other])
            && (Step(host, t, again).cells[|s.cells|] == Some(Granted) ==> Unasked(host, s.rules, again.up, again.command))
    ensures var t := Step(host, s, Clear(session));
            && t.sessions == s.sessions && t.tracker == Step(host, s, Remove(session)).tracker
            && (Step(host, t, again).cells[|s.cells|] == Step(host, s, again).cells[|s.cells|])
  {
    StartsIff(host, Step(host, s, Remove(session)), again);
  }

  /** An exact rule can take back what a glob rule allowed: approving `git` alone, after approving it with
      continuations, makes the user be asked about `git log` again. */
  lemma ExactRuleNarrows()
    ensures Allowed(map["git" := true], "git log")
    ensures !Allowed(map["git" := true]["git" := false], "git log")
  {
    assert "git" + " " <= "git log";
    assert Covers("git", true, "git log");
    assert "git" in map["git" := true];
  }
}
