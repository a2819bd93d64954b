/** `callApi` (lib/account.js): the single path by which every account
    operation reaches the remote API. A stale session is first marked not
    logged and re-authenticated; the operation is then called with the new
    token only, its payload left out. A fresh session calls the operation
    directly with its token and the payload.
 */
module Dispatch {
  import opened JsValues
  import opened Remote
  import opened Sessions

  /** Trace shape left by `callApi`: an operation call carries no payload
      exactly when the call just before it is an authentication. */
  predicate PayloadOnlyWhenNotAfterAuth(trace: seq<Call>) {
    forall i :: 0 <= i < |trace| && trace[i].OpCall? ==>
      (trace[i].payload.None? <==> FollowsAuth(trace, i))
  }

  /** The call at position `i` comes straight after an authentication. */
  predicate FollowsAuth(trace: seq<Call>, i: int)
    requires 0 <= i < |trace|
  {
    i > 0 && trace[i - 1].AuthCall?
  }

  /** `callApi(account, method, data)` with the clock reading `now` taken on
      entry and `authNow` taken when an authentication reply arrives. */
  function CallApi(s: Session, now: int, authNow: int, op: string, data: JsValue,
                   auth: AuthReply, reply: OpReply): (r: Effect<JsValue>)
    ensures r.session.email == s.email && r.session.password == s.password
    // fresh: one operation call with the payload, nothing else changes
    ensures !IsStale(s, now) ==>
      && r.trace == [OpCall(op, s.accessToken, Some(data))]
      && r.session == s
      && r.outcome == Settle(reply)
    // stale: the first call is the authentication, with the stored credentials
    ensures IsStale(s, now) ==> |r.trace| > 0 && r.trace[0] == AuthCall(s.email, s.password)
    // stale and granted: the operation follows with the new token and no payload
    ensures IsStale(s, now) && auth.Granted? ==>
      && r.trace == [AuthCall(s.email, s.password), OpCall(op, auth.grant.accessToken, None)]
      && r.session.logged
      && r.session.createdAt == Some(authNow)
      && r.session.accessToken == auth.grant.accessToken
      && r.session.expiresIn == Some(auth.grant.expiresIn)
      && r.session.jti == auth.grant.jti
      && r.session.scope == auth.grant.scope
      && r.session.tokenType == auth.grant.tokenType
      && r.outcome == Settle(reply)
    // stale and denied: no operation call, the rejection passes through, not logged
    ensures IsStale(s, now) && auth.Denied? ==>
      && r.trace == [AuthCall(s.email, s.password)]
      && r.session == s.(logged := false)
      && r.outcome == Rejected(auth.reason)
    // shape of every trace: credentials on each authentication, the
    // operation's name on each operation call
    ensures 0 < |r.trace| <= 2
    ensures forall i :: 0 <= i < |r.trace| && r.trace[i].AuthCall? ==>
      r.trace[i] == AuthCall(s.email, s.password)
    ensures forall i :: 0 <= i < |r.trace| && r.trace[i].OpCall? ==> r.trace[i].name == op
    ensures r.trace[0].OpCall? ==> s.logged
    ensures r.trace[|r.trace| - 1].AuthCall? ==> !r.session.logged
    ensures r.session.logged <==> !(IsStale(s, now) && auth.Denied?)
    ensures Consistent(s) ==> Consistent(r.session)
    ensures PayloadOnlyWhenNotAfterAuth(r.trace)
  {
    if IsStale(s, now) then
      var a := AuthStep(s.(logged := false), authNow, auth);
      if a.outcome.Resolved? then
        Effect(a.session, a.trace + [OpCall(op, a.session.accessToken, None)], Settle(reply))
      else
        Effect(a.session, a.trace, Rejected(a.outcome.reason))
    else
      Effect(s, [OpCall(op, s.accessToken, Some(data))], Settle(reply))
  }

  /** Whether a dispatch authenticates depends only on staleness: a fresh
      session never calls `auth`, a stale one calls it exactly once. */
  lemma AuthenticatesIffStale(s: Session, now: int, authNow: int, op: string, data: JsValue,
                              auth: AuthReply, reply: OpReply)
    ensures var r := CallApi(s, now, authNow, op, data, auth, reply);
      && (IsStale(s, now) ==> AuthCount(r.trace) == 1)
      && (!IsStale(s, now) ==> AuthCount(r.trace) == 0)
      && OpCount(r.trace) == (if IsStale(s, now) && auth.Denied? then 0 else 1)
  {
    var r := CallApi(s, now, authNow, op, data, auth, reply);
    if IsStale(s, now) && auth.Granted? {
      assert r.trace[1..] == [r.trace[1]];
      assert r.trace[1..][1..] == [];
      assert AuthCount(r.trace[1..]) == 0 && OpCount(r.trace[1..]) == 1;
    }
  }

  /** The payload is lost on the stale path: whatever `data` was, the
      operation call made after re-authenticating is the same. */
  lemma StalePathIgnoresPayload(s: Session, now: int, authNow: int, op: string,
                                d1: JsValue, d2: JsValue, auth: AuthReply, reply: OpReply)
    requires IsStale(s, now)
    ensures CallApi(s, now, authNow, op, d1, auth, reply)
         == CallApi(s, now, authNow, op, d2, auth, reply)
  {
  }
}
