/** An account used for a sequence of calls, one after the other: direct
    `auth()` calls and calls of the eight operation methods. Each step
    carries the clock readings and the remote replies it meets.
 */
module Runs {
  import opened JsValues
  import opened Remote
  import opened Sessions
  import opened Dispatch
  import opened Endpoints

  /** A public method of `Account`: `auth()` or one of the operation methods. */
  datatype Request = Authenticate | Call(endpoint: Endpoint)

  /** One request, the clock when it starts and when an authentication reply
      arrives, and the remote replies. */
  datatype Step = Step(now: int, authNow: int, request: Request, auth: AuthReply, reply: OpReply)

  /** How a request settles: `auth()` resolves to the account itself, an
      operation method to the remote reply. */
  datatype Settled = AuthSettled(account: Outcome<Session>) | CallSettled(result: Outcome<JsValue>)

  datatype Performed = Performed(session: Session, trace: seq<Call>, outcome: Settled)

  datatype RunResult = RunResult(session: Session, trace: seq<Call>, outcomes: seq<Settled>)

  /** Every authentication call in `trace` presents these credentials. */
  predicate AuthenticatesAs(trace: seq<Call>, email: JsValue, password: JsValue) {
    forall i :: 0 <= i < |trace| && trace[i].AuthCall? ==> trace[i] == AuthCall(email, password)
  }

  /** Weaker trace shape: an operation call without its payload always
      comes straight after an authentication. */
  predicate DroppedOnlyAfterAuth(trace: seq<Call>) {
    forall i :: 0 <= i < |trace| && trace[i].OpCall? && trace[i].payload.None? ==>
      FollowsAuth(trace, i)
  }

  /** Only operation methods, no direct `auth()` call. */
  predicate OnlyOperations(steps: seq<Step>) {
    forall i :: 0 <= i < |steps| ==> steps[i].request.Call?
  }

  /** One request on the session. A direct `auth()` always calls the remote
      authentication, whatever the session's state, and reads the clock
      when the reply arrives. */
  function Perform(s: Session, st: Step): (r: Performed)
    ensures r.session.email == s.email && r.session.password == s.password
    ensures Consistent(s) ==> Consistent(r.session)
    ensures |r.trace| <= 2
    ensures r.trace == [] ==> r.session == s
    ensures st.request.Authenticate? ==> r.trace == [AuthCall(s.email, s.password)]
    ensures AuthenticatesAs(r.trace, s.email, s.password)
    ensures |r.trace| > 0 && r.trace[0].OpCall? ==> s.logged
    ensures DroppedOnlyAfterAuth(r.trace)
    ensures st.request.Call? ==> PayloadOnlyWhenNotAfterAuth(r.trace)
    ensures st.request.Call? && |r.trace| > 0 && r.trace[|r.trace| - 1].AuthCall? ==> !r.session.logged
  {
    match st.request
    case Authenticate =>
      var a := AuthStep(s, st.authNow, st.auth);
      Performed(a.session, a.trace, AuthSettled(a.outcome))
    case Call(e) =>
      var c := Invoke(s, e, st.now, st.authNow, st.auth, st.reply);
      Performed(c.session, c.trace, CallSettled(c.outcome))
  }

  /** The requests of `steps` made in order on one session. */
  function Run(s: Session, steps: seq<Step>): (r: RunResult)
    decreases |steps|
    ensures |r.outcomes| == |steps|
    ensures r.session.email == s.email && r.session.password == s.password
    ensures Consistent(s) ==> Consistent(r.session)
    ensures |r.trace| <= 2 * |steps|
    ensures r.trace == [] ==> r.session == s
  {
    if steps == [] then RunResult(s, [], [])
    else
      var p := Perform(s, steps[0]);
      var rest := Run(p.session, steps[1..]);
      RunResult(rest.session, p.trace + rest.trace, [p.outcome] + rest.outcomes)
  }

  /** Every authentication made over a sequence of requests uses the
      credentials the account was constructed with. */
  lemma {:induction false} RunUsesCredentials(s: Session, steps: seq<Step>)
    decreases |steps|
    ensures AuthenticatesAs(Run(s, steps).trace, s.email, s.password)
  {
    if steps != [] {
      var p := Perform(s, steps[0]);
      var rest := Run(p.session, steps[1..]);
      RunUsesCredentials(p.session, steps[1..]);
      assert AuthenticatesAs(rest.trace, s.email, s.password);
      AuthenticatesAsAppend(p.trace, rest.trace, s.email, s.password);
      assert Run(s, steps).trace == p.trace + rest.trace;
    }
  }

  /** Joining two traces that authenticate with the same credentials. */
  lemma AuthenticatesAsAppend(a: seq<Call>, b: seq<Call>, email: JsValue, password: JsValue)
    requires AuthenticatesAs(a, email, password) && AuthenticatesAs(b, email, password)
    ensures AuthenticatesAs(a + b, email, password)
  {
  }

  /** A run whose first remote call is an operation started on a logged
      session. */
  lemma {:induction false} RunStartsLogged(s: Session, steps: seq<Step>)
    decreases |steps|
    ensures var r := Run(s, steps);
      |r.trace| > 0 && r.trace[0].OpCall? ==> s.logged
  {
    if steps != [] {
      var p := Perform(s, steps[0]);
      var rest := Run(p.session, steps[1..]);
      assert Run(s, steps).trace == p.trace + rest.trace;
      if p.trace == [] {
        RunStartsLogged(p.session, steps[1..]);
        assert p.trace + rest.trace == rest.trace;
      } else {
        assert (p.trace + rest.trace)[0] == p.trace[0];
      }
    }
  }

  /** In a run of operation methods, a trace whose last remote call is an
      authentication ends not logged: `callApi`'s re-authentication was
      denied. (A denied direct `auth()` leaves `logged` as it was.) */
  lemma {:induction false} RunEndsAfterDenial(s: Session, steps: seq<Step>)
    requires OnlyOperations(steps)
    decreases |steps|
    ensures var r := Run(s, steps);
      |r.trace| > 0 && r.trace[|r.trace| - 1].AuthCall? ==> !r.session.logged
  {
    if steps != [] {
      var p := Perform(s, steps[0]);
      var rest := Run(p.session, steps[1..]);
      assert OnlyOperations(steps[1..]) by {
        forall i | 0 <= i < |steps[1..]| ensures steps[1..][i].request.Call? {
          assert steps[1..][i] == steps[i + 1];
        }
      }
      RunEndsAfterDenial(p.session, steps[1..]);
      var trace := p.trace + rest.trace;
      assert Run(s, steps).trace == trace;
      if rest.trace == [] {
        assert trace == p.trace;
      } else {
        assert trace[|trace| - 1] == rest.trace[|rest.trace| - 1];
      }
    }
  }

  /** Joining two traces in which a payload is dropped only after an
      authentication. */
  lemma DroppedOnlyAfterAuthAppend(a: seq<Call>, b: seq<Call>)
    requires DroppedOnlyAfterAuth(a) && DroppedOnlyAfterAuth(b)
    ensures DroppedOnlyAfterAuth(a + b)
  {
    var t := a + b;
    forall i | 0 <= i < |t| && t[i].OpCall? && t[i].payload.None?
      ensures FollowsAuth(t, i)
    {
      if i < |a| {
        assert t[i] == a[i];
      } else {
        assert t[i] == b[i - |a|];
      }
    }
  }

  /** Over any sequence of requests, an operation called without its payload
      comes straight after an authentication. */
  lemma {:induction false} RunDropsOnlyAfterAuth(s: Session, steps: seq<Step>)
    decreases |steps|
    ensures DroppedOnlyAfterAuth(Run(s, steps).trace)
  {
    if steps != [] {
      var p := Perform(s, steps[0]);
      var rest := Run(p.session, steps[1..]);
      RunDropsOnlyAfterAuth(p.session, steps[1..]);
      assert Run(s, steps).trace == p.trace + rest.trace;
      DroppedOnlyAfterAuthAppend(p.trace, rest.trace);
    }
  }

  /** Joining two traces keeps the payload shape, provided the second does
      not open with an operation call right after an authentication. */
  lemma PayloadShapeAppend(a: seq<Call>, b: seq<Call>)
    requires PayloadOnlyWhenNotAfterAuth(a) && PayloadOnlyWhenNotAfterAuth(b)
    requires |a| > 0 && |b| > 0 && b[0].OpCall? ==> !a[|a| - 1].AuthCall?
    ensures PayloadOnlyWhenNotAfterAuth(a + b)
  {
  }

  /** Over any sequence of operation methods, an operation is called without
      its payload exactly when it comes straight after an authentication:
      the payload is dropped on every re-authenticated call and on no
      other. */
  lemma {:induction false} RunPayloadShape(s: Session, steps: seq<Step>)
    requires OnlyOperations(steps)
    decreases |steps|
    ensures PayloadOnlyWhenNotAfterAuth(Run(s, steps).trace)
  {
    if steps != [] {
      var p := Perform(s, steps[0]);
      var rest := Run(p.session, steps[1..]);
      assert OnlyOperations(steps[1..]) by {
        forall i | 0 <= i < |steps[1..]| ensures steps[1..][i].request.Call? {
          assert steps[1..][i] == steps[i + 1];
        }
      }
      RunPayloadShape(p.session, steps[1..]);
      RunStartsLogged(p.session, steps[1..]);
      assert Run(s, steps).trace == p.trace + rest.trace;
      PayloadShapeAppend(p.trace, rest.trace);
    }
  }

  /** The exact shape needs the restriction to operation methods: a granted
      direct `auth()` followed by a call on the now fresh session puts an
      operation call with its payload straight after an authentication. */
  lemma DirectAuthThenCall(s: Session, t: int, g: Grant, reply: OpReply)
    requires g.expiresIn > 0
    ensures var steps := [Step(t, t, Authenticate, Granted(g), reply),
                          Step(t, t, Call(Me), Granted(g), reply)];
      && Run(s, steps).trace == [AuthCall(s.email, s.password),
                                 OpCall("getMe", g.accessToken, Some(Undefined))]
      && !PayloadOnlyWhenNotAfterAuth(Run(s, steps).trace)
  {
    var steps := [Step(t, t, Authenticate, Granted(g), reply),
                  Step(t, t, Call(Me), Granted(g), reply)];
    var p1 := Perform(s, steps[0]);
    assert p1.session.logged && p1.session.accessToken == g.accessToken;
    assert !IsStale(p1.session, t);
    var p2 := Perform(p1.session, steps[1]);
    assert p2.trace == [OpCall("getMe", g.accessToken, Some(Undefined))];
    assert steps[1..][1..] == [];
    assert Run(p1.session, steps[1..]).trace == p2.trace;
    var trace := Run(s, steps).trace;
    assert trace == p1.trace + p2.trace;
    assert trace == [AuthCall(s.email, s.password), OpCall("getMe", g.accessToken, Some(Undefined))];
    assert trace[1].OpCall? && !trace[1].payload.None? && FollowsAuth(trace, 1);
  }

  /** Each request authenticates at most once and calls at most one
      operation, so a run makes no more of either than it has requests. */
  lemma {:induction false} RunCallCounts(s: Session, steps: seq<Step>)
    decreases |steps|
    ensures AuthCount(Run(s, steps).trace) <= |steps|
    ensures OpCount(Run(s, steps).trace) <= |steps|
  {
    if steps != [] {
      var p := Perform(s, steps[0]);
      var rest := Run(p.session, steps[1..]);
      RunCallCounts(p.session, steps[1..]);
      assert Run(s, steps).trace == p.trace + rest.trace;
      CountsAppend(p.trace, rest.trace);
      StepCallCounts(s, steps[0]);
    }
  }

  /** A single request makes at most one call of each kind. */
  lemma StepCallCounts(s: Session, st: Step)
    ensures AuthCount(Perform(s, st).trace) <= 1 && OpCount(Perform(s, st).trace) <= 1
  {
    match st.request
    case Authenticate =>
      assert Perform(s, st).trace[1..] == [];
    case Call(e) =>
      if Perform(s, st).trace != [] {
        AuthenticatesIffStale(s, st.now, st.authNow, OperationName(e),
                              Payload(e), st.auth, st.reply);
      }
  }
}
