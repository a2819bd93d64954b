/** The public methods of `Account` (lib/account.js): each names one remote
    operation and the payload it passes to `callApi`; `transfer` validates
    its request before dispatching.
 */
module Endpoints {
  import opened JsValues
  import opened Remote
  import opened Sessions
  import opened Dispatch

  /** A call of one of the account methods, with its arguments. */
  datatype Endpoint =
    | Account
    | Addresses
    | Cards
    | Me
    | Memo(transaction: JsValue, memo: JsValue)
    | Recipients
    | Transactions(options: JsValue)
    | Transfer(data: JsValue)

  /** The remote operation each method dispatches. */
  function OperationName(e: Endpoint): string {
    match e
    case Account => "getAccount"
    case Addresses => "getAddresses"
    case Cards => "getCards"
    case Me => "getMe"
    case Memo(_, _) => "createOrUpdateMemo"
    case Recipients => "getRecipients"
    case Transactions(_) => "getTransactions"
    case Transfer(_) => "createTransfer"
  }

  /** The `data` argument each method passes to `callApi`; the methods that
      pass none leave it `undefined`. */
  function Payload(e: Endpoint): JsValue {
    match e
    case Memo(t, m) => Obj(map["transaction" := t, "memo" := m])
    case Transactions(options) => options
    case Transfer(data) => data
    case _ => Undefined
  }

  /** Two calls name the same method, whatever their arguments. */
  predicate SameMethod(e1: Endpoint, e2: Endpoint) {
    match e1
    case Account => e2.Account?
    case Addresses => e2.Addresses?
    case Cards => e2.Cards?
    case Me => e2.Me?
    case Memo(_, _) => e2.Memo?
    case Recipients => e2.Recipients?
    case Transactions(_) => e2.Transactions?
    case Transfer(_) => e2.Transfer?
  }

  /** Distinct methods reach distinct remote operations. */
  lemma OperationNameInjective(e1: Endpoint, e2: Endpoint)
    ensures OperationName(e1) == OperationName(e2) <==> SameMethod(e1, e2)
  {
  }

  /** The fields `transfer` requires, in the order it tests them. */
  const RequiredFields: seq<string> := ["pin", "iban", "bic", "amount", "name", "reference"]

  /** The longest reference `transfer` accepts, in UTF-16 code units. */
  const MaxReferenceLength: int := 135

  /** The verdict of `transfer`'s checks on its `data` argument. */
  datatype TransferCheck = Valid | MissingParams | ReferenceTooLong | NotAnObject

  /** Some required field of `data` is falsy. */
  predicate MissingField(data: JsValue)
    requires !data.IsNullish()
  {
    exists i :: 0 <= i < |RequiredFields| && !Truthy(Get(data, RequiredFields[i]))
  }

  /** `reference.length > 135`; only asked of a truthy reference, whose
      `length` can be read. */
  predicate TooLong(reference: JsValue) {
    !reference.IsNullish() && GreaterThan(Get(reference, "length"), MaxReferenceLength as real)
  }

  /** The checks at the head of `transfer`, in their order: reading a field
      of `undefined` or `null` throws; a falsy required field fails before
      the length test; a too long reference fails next. */
  function CheckTransfer(data: JsValue): (r: TransferCheck)
    ensures r == NotAnObject <==> data.IsNullish()
    ensures r == MissingParams <==> !data.IsNullish() && MissingField(data)
    ensures r == ReferenceTooLong <==>
      !data.IsNullish() && !MissingField(data) && TooLong(Get(data, "reference"))
    ensures r == Valid <==>
      !data.IsNullish() && !MissingField(data) && !TooLong(Get(data, "reference"))
  {
    if data.IsNullish() then NotAnObject
    else if || !Truthy(Get(data, "pin")) || !Truthy(Get(data, "iban")) || !Truthy(Get(data, "bic"))
            || !Truthy(Get(data, "amount")) || !Truthy(Get(data, "name"))
            || !Truthy(Get(data, "reference"))
    then
      assert MissingField(data) by {
        if !Truthy(Get(data, "pin")) { assert !Truthy(Get(data, RequiredFields[0])); }
        else if !Truthy(Get(data, "iban")) { assert !Truthy(Get(data, RequiredFields[1])); }
        else if !Truthy(Get(data, "bic")) { assert !Truthy(Get(data, RequiredFields[2])); }
        else if !Truthy(Get(data, "amount")) { assert !Truthy(Get(data, RequiredFields[3])); }
        else if !Truthy(Get(data, "name")) { assert !Truthy(Get(data, RequiredFields[4])); }
        else { assert !Truthy(Get(data, RequiredFields[5])); }
      }
      MissingParams
    else
      assert !MissingField(data) by {
        forall i | 0 <= i < |RequiredFields|
          ensures Truthy(Get(data, RequiredFields[i]))
        {
          assert RequiredFields[i] in {"pin", "iban", "bic", "amount", "name", "reference"};
        }
      }
      if TooLong(Get(data, "reference")) then ReferenceTooLong else Valid
  }

  /** The settlement of a request that fails its checks. */
  function Refusal(c: TransferCheck): Outcome<JsValue>
    requires c != Valid
  {
    match c
    case MissingParams => Rejected(Str("MISSING_PARAMS"))
    case ReferenceTooLong => Rejected(Str("REFERENCE_TOO_LONG"))
    case NotAnObject => Threw("TypeError")
  }

  /** Calling one account method. A transfer that fails its checks makes no
      remote call and leaves the session alone; every other call goes
      through `callApi` with the method's operation and payload. */
  function Invoke(s: Session, e: Endpoint, now: int, authNow: int,
                  auth: AuthReply, reply: OpReply): (r: Effect<JsValue>)
    ensures e.Transfer? && CheckTransfer(e.data) != Valid ==>
      r == Effect(s, [], Refusal(CheckTransfer(e.data)))
    ensures !e.Transfer? || CheckTransfer(e.data) == Valid ==>
      r == CallApi(s, now, authNow, OperationName(e), Payload(e), auth, reply)
    ensures r.trace == [] <==> e.Transfer? && CheckTransfer(e.data) != Valid
    ensures forall i :: 0 <= i < |r.trace| && r.trace[i].OpCall? ==> r.trace[i].name == OperationName(e)
    ensures forall i :: 0 <= i < |r.trace| && r.trace[i].AuthCall? ==>
      r.trace[i] == AuthCall(s.email, s.password)
    ensures r.session.email == s.email && r.session.password == s.password
    ensures Consistent(s) ==> Consistent(r.session)
    ensures PayloadOnlyWhenNotAfterAuth(r.trace)
    ensures |r.trace| > 0 && r.trace[0].OpCall? ==> s.logged
    ensures |r.trace| > 0 && r.trace[|r.trace| - 1].AuthCall? ==> !r.session.logged
    ensures |r.trace| <= 2
  {
    if e.Transfer? && CheckTransfer(e.data) != Valid then
      Effect(s, [], Refusal(CheckTransfer(e.data)))
    else
      CallApi(s, now, authNow, OperationName(e), Payload(e), auth, reply)
  }
}
