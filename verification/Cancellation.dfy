/** Session-scoped cancellation, as a host sees it: the requests in the order they are read, and which
    invocations a cancel request must reach. */
module Cancellation {
  type SessionId = string

  datatype Request =
    | Invoke(session: SessionId, event: nat)
    | Cancel(session: SessionId, event: nat)
    | Other(event: nat)

  /** The specification both services meet: an invocation read at position `at` is to be signalled just
      when a cancel of its session was read after it. */
  predicate CancelRequested(read: seq<Request>, at: nat, session: SessionId) {
    exists j | at < j < |read| :: IsCancelOf(read[j], session)
  }

  predicate IsCancelOf(request: Request, session: SessionId) {
    request.Cancel? && request.session == session
  }

  lemma RequestedAfter(read: seq<Request>, request: Request, at: nat, session: SessionId)
    requires at < |read|
    ensures CancelRequested(read + [request], at, session)
       <==> CancelRequested(read, at, session) || IsCancelOf(request, session)
  {
    var after := read + [request];
    if CancelRequested(read, at, session) {
      var j :| at < j < |read| && IsCancelOf(read[j], session);
      assert IsCancelOf(after[j], session);
    }
    if IsCancelOf(request, session) {
      assert IsCancelOf(after[|read|], session);
    }
    if CancelRequested(after, at, session) {
      var j :| at < j < |after| && IsCancelOf(after[j], session);
      assert j < |read| ==> IsCancelOf(read[j], session);
    }
  }

  lemma NothingAfterLast(read: seq<Request>, request: Request, session: SessionId)
    ensures !CancelRequested(read + [request], |read|, session)
  {
  }
}

/** The Rust extension base: one shared token per session, dropped and signalled by a cancel. */
module ExtensionService {
  import opened Cancellation

  /** Tokens are numbered in the order they are made; the table holds each session's current one. */
  datatype Tokens = Tokens(table: map<SessionId, nat>, cancelled: seq<bool>)

  /** The token an invocation of the session waits on: the session's own, or a fresh one. */
  function TokenOf(t: Tokens, session: SessionId): nat {
    if session in t.table then t.table[session] else |t.cancelled|
  }

  function WithToken(t: Tokens, session: SessionId): Tokens {
    if session in t.table then t else Tokens(t.table[session := |t.cancelled|], t.cancelled + [false])
  }

  function AfterCancel(t: Tokens, session: SessionId): Tokens {
    if session in t.table then
      var token := t.table[session];
      Tokens(t.table - {session}, if token < |t.cancelled| then t.cancelled[token := true] else t.cancelled)
    else t
  }

  class ExtensionService {
    var cancellation: map<SessionId, nat>
    var cancelled: seq<bool>

    ghost function View(): Tokens
      reads this
    {
      Tokens(cancellation, cancelled)
    }

    constructor ()
      ensures View() == Tokens(map[], [])
    {
      cancellation := map[];
      cancelled := [];
    }

    method InvokeToken(session: SessionId) returns (token: nat)
      modifies this
      ensures token == TokenOf(old(View()), session)
      ensures View() == WithToken(old(View()), session)
    {
      if session !in cancellation {
        cancellation := cancellation[session := |cancelled|];
        cancelled := cancelled + [false];
      }
      token := cancellation[session];
    }

    method CancelSession(session: SessionId)
      modifies this
      ensures View() == AfterCancel(old(View()), session)
    {
      if session in cancellation {
        var token := cancellation[session];
        cancellation := cancellation - {session};
        if token < |cancelled| {
          cancelled := cancelled[token := true];
        }
      }
    }
  }

  /** An invocation: where it was read, and the token it waits on. */
  datatype Invocation = Invocation(session: SessionId, at: nat, token: nat)
  datatype State = State(tokens: Tokens, invocations: seq<Invocation>, read: seq<Request>)

  function Handle(s: State, request: Request): State {
    match request
    case Invoke(session, _) =>
      State(WithToken(s.tokens, session),
            s.invocations + [Invocation(session, |s.read|, TokenOf(s.tokens, session))], s.read + [request])
    case Cancel(session, _) => State(AfterCancel(s.tokens, session), s.invocations, s.read + [request])
    case Other(_) => s.(read := s.read + [request])
  }

  function Served(requests: seq<Request>): State {
    if requests == [] then State(Tokens(map[], []), [], [])
    else Handle(Served(requests[..|requests| - 1]), requests[|requests| - 1])
  }

  predicate Signalled(s: State, i: nat)
    requires i < |s.invocations|
  {
    s.invocations[i].token < |s.tokens.cancelled| && s.tokens.cancelled[s.invocations[i].token]
  }

  predicate InvocationInv(s: State, i: nat)
    requires i < |s.invocations|
  {
    var v := s.invocations[i];
    && v.token < |s.tokens.cancelled| && v.at < |s.read|
    && s.read[v.at].Invoke? && s.read[v.at].session == v.session
    && (Signalled(s, i) <==> CancelRequested(s.read, v.at, v.session))
    && (!Signalled(s, i) ==> v.session in s.tokens.table && s.tokens.table[v.session] == v.token)
  }

  predicate SessionInv(t: Tokens, session: SessionId)
    requires session in t.table
  {
    && t.table[session] < |t.cancelled| && !t.cancelled[t.table[session]]
    && (forall other | other in t.table && other != session :: t.table[other] != t.table[session])
  }

  ghost predicate Inv(s: State) {
    && (forall session | session in s.tokens.table :: SessionInv(s.tokens, session))
    && (forall i | 0 <= i < |s.invocations| :: InvocationInv(s, i))
  }

  lemma HandleKeeps(s: State, request: Request)
    requires Inv(s)
    ensures Inv(Handle(s, request))
  {
    var after := Handle(s, request);
    forall session | session in after.tokens.table ensures SessionInv(after.tokens, session) {
      assert session in s.tokens.table ==> SessionInv(s.tokens, session);
      assert request.Cancel? && request.session in s.tokens.table ==> SessionInv(s.tokens, request.session);
    }
    forall i | 0 <= i < |after.invocations| ensures InvocationInv(after, i) {
      if i < |s.invocations| {
        OldInvocationKept(s, request, i);
      } else {
        NothingAfterLast(s.read, request, request.session);
        assert request.session in s.tokens.table ==> SessionInv(s.tokens, request.session);
      }
    }
  }

  lemma OldInvocationKept(s: State, request: Request, i: nat)
    requires Inv(s) && i < |s.invocations|
    ensures InvocationInv(Handle(s, request), i)
  {
    var v := s.invocations[i];
    assert InvocationInv(s, i);
    RequestedAfter(s.read, request, v.at, v.session);
    if request.Cancel? && request.session in s.tokens.table {
      assert SessionInv(s.tokens, request.session);
      assert v.session in s.tokens.table ==> SessionInv(s.tokens, v.session);
    }
  }

  ghost predicate Good(requests: seq<Request>) {
    Inv(Served(requests)) && Served(requests).read == requests
  }

  lemma ServedInv(requests: seq<Request>)
    ensures Good(requests)
  {
    ServedUpTo(requests, |requests|);
    assert requests[..|requests|] == requests;
  }

  lemma {:induction false} ServedUpTo(requests: seq<Request>, n: nat)
    requires n <= |requests|
    ensures Good(requests[..n])
  {
    if n > 0 {
      ServedUpTo(requests, n - 1);
      assert requests[..n] == requests[..n - 1] + [requests[n - 1]];
      OneMore(requests[..n - 1], requests[n - 1]);
    }
  }

  lemma OneMore(front: seq<Request>, request: Request)
    requires Good(front)
    ensures Good(front + [request])
  {
    assert (front + [request])[..|front|] == front;
    HandleKeeps(Served(front), request);
  }

  /** Which of the invocations was read at position `p`. */
  lemma {:induction false} InvocationAt(requests: seq<Request>, p: nat) returns (i: nat)
    requires p < |requests| && requests[p].Invoke?
    ensures i < |Served(requests).invocations| && Served(requests).invocations[i].at == p
  {
    var front := requests[..|requests| - 1];
    ServedInv(front);
    if p < |front| {
      i := InvocationAt(front, p);
    } else {
      i := |Served(front).invocations|;
    }
  }

  /** After any requests, the invocation read at any position is signalled just when a cancel of its
      session was read after it; sharing a token with others of the session changes nothing. */
  lemma {:induction false} SignalsExactly(requests: seq<Request>, p: nat)
    requires p < |requests| && requests[p].Invoke?
    ensures exists i | 0 <= i < |Served(requests).invocations| ::
              && Served(requests).invocations[i].at == p
              && (Signalled(Served(requests), i) <==> CancelRequested(requests, p, requests[p].session))
  {
    ServedInv(requests);
    var i := InvocationAt(requests, p);
    assert InvocationInv(Served(requests), i);
  }
}
