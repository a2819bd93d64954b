/** Consequences of the model for concrete requests and sessions: the
    falsiness edge cases and the length boundary of `transfer`, and the
    fresh and stale dispatch scenarios of `callApi`.
 */
module Scenarios {
  import opened JsValues
  import opened Remote
  import opened Sessions
  import opened Dispatch
  import opened Endpoints

  /** A transfer request object with the six fields `transfer` reads. */
  function TransferRequest(pin: JsValue, iban: JsValue, bic: JsValue, amount: JsValue,
                   name: JsValue, reference: JsValue): JsValue
  {
    Obj(map["pin" := pin, "iban" := iban, "bic" := bic, "amount" := amount,
            "name" := name, "reference" := reference])
  }

  /** A string reference is too long exactly when it has more than 135
      UTF-16 code units; a truthy number or boolean has no `length` and is
      never too long. */
  lemma TooLongForStrings(reference: JsValue)
    ensures reference.Str? ==> (TooLong(reference) <==> Utf16Length(reference.s) > 135)
    ensures reference.Num? || reference.Bool? ==> !TooLong(reference)
  {
  }

  /** A request with a falsy required field is refused with
      `'MISSING_PARAMS'`, whatever its reference, before any remote call and
      without touching the session. */
  lemma MissingFieldRefused(s: Session, data: JsValue, i: int, now: int, authNow: int,
                            auth: AuthReply, reply: OpReply)
    requires !data.IsNullish()
    requires 0 <= i < |RequiredFields| && !Truthy(Get(data, RequiredFields[i]))
    ensures Invoke(s, Transfer(data), now, authNow, auth, reply)
         == Effect(s, [], Rejected(Str("MISSING_PARAMS")))
  {
  }

  /** `amount: 0` and `reference: ""` count as missing, and the missing
      field wins over an over-long reference. */
  lemma FalsyEdgeCases(pin: JsValue, iban: JsValue, bic: JsValue, amount: JsValue,
                       name: JsValue, reference: JsValue)
    ensures CheckTransfer(TransferRequest(pin, iban, bic, Num(0.0), name, reference)) == MissingParams
    ensures CheckTransfer(TransferRequest(pin, iban, bic, amount, name, Str(""))) == MissingParams
    ensures CheckTransfer(TransferRequest(Null, iban, bic, amount, name, reference)) == MissingParams
  {
    var d1 := TransferRequest(pin, iban, bic, Num(0.0), name, reference);
    assert !Truthy(Get(d1, RequiredFields[3]));
    var d2 := TransferRequest(pin, iban, bic, amount, name, Str(""));
    assert !Truthy(Get(d2, RequiredFields[5]));
    var d3 := TransferRequest(Null, iban, bic, amount, name, reference);
    assert !Truthy(Get(d3, RequiredFields[0]));
  }

  /** With every field truthy, a reference of 135 code units is accepted and
      one of 136 is refused with `'REFERENCE_TOO_LONG'`. */
  lemma ReferenceLengthBoundary(pin: JsValue, iban: JsValue, bic: JsValue, amount: JsValue,
                                name: JsValue, r135: string, r136: string)
    requires Truthy(pin) && Truthy(iban) && Truthy(bic) && Truthy(amount) && Truthy(name)
    requires Utf16Length(r135) == 135 && Utf16Length(r136) == 136
    ensures CheckTransfer(TransferRequest(pin, iban, bic, amount, name, Str(r135))) == Valid
    ensures CheckTransfer(TransferRequest(pin, iban, bic, amount, name, Str(r136))) == ReferenceTooLong
  {
  }

  /** A valid transfer is dispatched as `createTransfer` with its request
      as the payload. */
  lemma ValidTransferDispatched(s: Session, data: JsValue, now: int, authNow: int,
                                auth: AuthReply, reply: OpReply)
    requires CheckTransfer(data) == Valid
    requires !IsStale(s, now)
    ensures Invoke(s, Transfer(data), now, authNow, auth, reply).trace
         == [OpCall("createTransfer", s.accessToken, Some(data))]
  {
  }

  /** A session issued ten seconds ago with a one-hour window calls `getMe`
      once, with its token, and never authenticates. */
  lemma FreshMe(s: Session, now: int, authNow: int, auth: AuthReply, reply: OpReply)
    requires s.logged && s.createdAt == Some(now - 10) && s.expiresIn == Some(3600)
    ensures var r := Invoke(s, Me, now, authNow, auth, reply);
      && r.trace == [OpCall("getMe", s.accessToken, Some(Undefined))]
      && r.session == s
      && r.outcome == Settle(reply)
  {
  }

  /** A session issued 4000 seconds ago with a one-hour window authenticates
      once, then calls `getTransactions` once with the token just granted,
      and without its options. */
  lemma StaleTransactions(s: Session, now: int, authNow: int, options: JsValue,
                          g: Grant, reply: OpReply)
    requires s.logged && s.createdAt == Some(now - 4000) && s.expiresIn == Some(3600)
    ensures var r := Invoke(s, Transactions(options), now, authNow, Granted(g), reply);
      && r.trace == [AuthCall(s.email, s.password), OpCall("getTransactions", g.accessToken, None)]
      && r.session.accessToken == g.accessToken
      && r.outcome == Settle(reply)
  {
  }

  /** A new account authenticates on its first call, whatever the time. */
  lemma FirstCallAuthenticates(email: JsValue, password: JsValue, e: Endpoint, now: int,
                               authNow: int, auth: AuthReply, reply: OpReply)
    requires !e.Transfer? || CheckTransfer(e.data) == Valid
    ensures var r := Invoke(Construct(email, password), e, now, authNow, auth, reply);
      |r.trace| > 0 && r.trace[0] == AuthCall(email, password)
  {
  }
}
