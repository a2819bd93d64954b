/** The remote API module is not part of this model. It appears here only as
    the calls the client makes to it (the trace) and as the replies it gives
    (inputs chosen by the caller of the model).
 */
module Remote {
  import opened JsValues

  /** One call into the remote API. `payload` is `None` when the operation is
      called with the token as its only argument. */
  datatype Call =
    | AuthCall(email: JsValue, password: JsValue)
    | OpCall(name: string, token: JsValue, payload: Option<JsValue>)

  /** The fields of a successful authentication reply that the client keeps. */
  datatype Grant = Grant(
    accessToken: JsValue,
    expiresIn: int,
    jti: JsValue,
    scope: JsValue,
    tokenType: JsValue)

  /** The settlement of `api.auth(email, password)`. */
  datatype AuthReply = Granted(grant: Grant) | Denied(reason: JsValue)

  /** The settlement of an account operation such as `api.getMe(token)`. */
  datatype OpReply = Answered(value: JsValue) | Failed(reason: JsValue)

  /** The client hands an operation's settlement to its caller unchanged. */
  function Settle(reply: OpReply): Outcome<JsValue> {
    match reply
    case Answered(v) => Resolved(v)
    case Failed(e) => Rejected(e)
  }

  /** Number of authentication calls in a trace. */
  function AuthCount(trace: seq<Call>): nat {
    if trace == [] then 0
    else (if trace[0].AuthCall? then 1 else 0) + AuthCount(trace[1..])
  }

  /** Number of operation calls in a trace. */
  function OpCount(trace: seq<Call>): nat {
    if trace == [] then 0
    else (if trace[0].OpCall? then 1 else 0) + OpCount(trace[1..])
  }

  /** Counting calls distributes over concatenation of traces. */
  lemma {:induction false} CountsAppend(a: seq<Call>, b: seq<Call>)
    ensures AuthCount(a + b) == AuthCount(a) + AuthCount(b)
    ensures OpCount(a + b) == OpCount(a) + OpCount(b)
  {
    if a == [] {
      assert a + b == b;
    } else {
      assert (a + b)[1..] == a[1..] + b;
      CountsAppend(a[1..], b);
    }
  }
}
