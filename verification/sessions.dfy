/** The session record of an `Account` (lib/account.js): credentials, the
    `logged` flag and the token fields copied from the last successful
    authentication, together with the constructor, `auth` and the staleness
    test that `callApi` applies before every operation.
 */
module Sessions {
  import opened JsValues
  import opened Remote

  /** The fields of an `Account` instance. `createdAt` and `expiresIn` are
      `null` (`None`) until the first successful authentication. */
  datatype Session = Session(
    logged: bool,
    email: JsValue,
    password: JsValue,
    createdAt: Option<int>,
    accessToken: JsValue,
    expiresIn: Option<int>,
    jti: JsValue,
    scope: JsValue,
    tokenType: JsValue)

  /** What a client operation does: the session afterwards, the remote calls
      it made in order, and how it settles. */
  datatype Effect<+T> = Effect(session: Session, trace: seq<Call>, outcome: Outcome<T>)

  /** Invariant of every session the client produces: a logged session has a
      numeric issue time and validity window. */
  predicate Consistent(s: Session) {
    s.logged ==> s.createdAt.Some? && s.expiresIn.Some?
  }

  /** `new Account(email, password)`: not logged, every token field `null`. */
  function Construct(email: JsValue, password: JsValue): (s: Session)
    ensures !s.logged
    ensures s.email == email && s.password == password
    ensures s.createdAt == None && s.expiresIn == None
    ensures s.accessToken == Null && s.jti == Null && s.scope == Null && s.tokenType == Null
    ensures Consistent(s)
    ensures forall now :: IsStale(s, now)
  {
    Session(false, email, password, None, Null, None, Null, Null, Null)
  }

  /** A numeric field as `>=` and `-` see it: `null` converts to 0. */
  function NumberOf(field: Option<int>): int {
    match field
    case Some(n) => n
    case None => 0
  }

  /** The test in `callApi`: the session must authenticate again when it is
      not logged or when its token is at least `expiresIn` seconds old. */
  predicate IsStale(s: Session, now: int) {
    !s.logged || now - NumberOf(s.createdAt) >= NumberOf(s.expiresIn)
  }

  /** Freshness: logged, with a numeric issue time and window, and the token
      strictly younger than its window. `callApi`'s test is its negation. */
  predicate IsFresh(s: Session, now: int) {
    && s.logged
    && s.createdAt.Some?
    && s.expiresIn.Some?
    && now - s.createdAt.value < s.expiresIn.value
  }

  /** On consistent sessions the code's staleness test is exactly the
      negation of freshness. */
  lemma StaleIffNotFresh(s: Session, now: int)
    requires Consistent(s)
    ensures IsStale(s, now) <==> !IsFresh(s, now)
  {
  }

  /** The boundary is stale: a token issued at `c` with window `e` is still
      usable at `c + e - 1` and must be renewed at `c + e`. */
  lemma ExpiryBoundary(s: Session, c: int, e: int)
    requires s.logged && s.createdAt == Some(c) && s.expiresIn == Some(e)
    ensures IsStale(s, c + e)
    ensures !IsStale(s, c + e - 1)
    ensures forall now :: IsStale(s, now) <==> now >= c + e
  {
  }

  /** `auth()`: one call `api.auth(email, password)`. On success the session
      becomes logged, issued at `now`, with the reply's token fields; it
      resolves to the session itself. On failure the rejection is passed on
      and the session is left as it was. */
  function AuthStep(s: Session, now: int, reply: AuthReply): (r: Effect<Session>)
    ensures r.trace == [AuthCall(s.email, s.password)]
    ensures r.session.email == s.email && r.session.password == s.password
    ensures reply.Granted? <==> r.outcome.Resolved?
    ensures reply.Granted? ==>
      && r.outcome == Resolved(r.session)
      && r.session.logged
      && r.session.createdAt == Some(now)
      && r.session.accessToken == reply.grant.accessToken
      && r.session.expiresIn == Some(reply.grant.expiresIn)
      && r.session.jti == reply.grant.jti
      && r.session.scope == reply.grant.scope
      && r.session.tokenType == reply.grant.tokenType
    ensures reply.Granted? ==> forall t :: IsStale(r.session, t) <==> t - now >= reply.grant.expiresIn
    ensures reply.Denied? ==> r.session == s && r.outcome == Rejected(reply.reason)
    ensures Consistent(s) ==> Consistent(r.session)
  {
    var call := [AuthCall(s.email, s.password)];
    match reply
    case Granted(g) =>
      var s' := s.(logged := true, createdAt := Some(now), accessToken := g.accessToken,
                   expiresIn := Some(g.expiresIn), jti := g.jti, scope := g.scope,
                   tokenType := g.tokenType);
      Effect(s', call, Resolved(s'))
    case Denied(e) =>
      Effect(s, call, Rejected(e))
  }
}
