# Session and dispatch model of the n26 `Account` client

This project models the core of `lib/account.js`, the `Account` class of a
client for the N26 banking API, in Dafny. An account object keeps
credentials and a short-lived access token. Before every account operation,
the private `callApi` checks whether the token is stale. If it is, the
account authenticates again and then calls the operation; otherwise it calls
the operation directly. `transfer` checks its request before dispatching.

The model is functional. A `Session` value stands for the account object's
fields. Each operation returns an `Effect`: the session afterwards, the
trace of remote calls made in order (`AuthCall(email, password)`,
`OpCall(name, token, payload)`) and the settlement of the promise. The
remote API module is an oracle: the authentication reply and the operation's
reply are inputs. Clock readings are integer parameters: `now` for the read
at the start of `callApi`, and `authNow` for the read made when the
authentication reply arrives.

Modules, in dependency order:

- `JsValues` (js_values.dfy): JavaScript values, truthiness, property
  reads, `length` in UTF-16 code units, promise settlements.
- `Remote` (remote.dfy): the trace of remote calls and the remote replies.
- `Sessions` (sessions.dfy): the session record, the constructor, `auth`
  and the staleness test.
- `Dispatch` (dispatch.dfy): `callApi`.
- `Endpoints` (endpoints.dfy): the account methods, their remote operation
  names and payloads, and the `transfer` checks.
- `Scenarios` (scenarios.dfy): consequences for concrete requests and
  sessions.
- `Runs` (runs.dfy): a sequence of requests on one session, each a direct
  `auth()` or an operation method, with trace properties proved by
  induction.

Two behaviours of the code are modelled as written:

- **The stale path drops the payload.** After re-authenticating, `callApi`
  calls the operation with the token alone. Only the fresh path passes
  `data`. So a `transfer` or `memo` made with an expired token reaches the
  remote API without its request. `Dispatch.StalePathIgnoresPayload` and
  `Runs.RunPayloadShape` state this.
- **Required fields use JavaScript falsiness.** `amount: 0`,
  `reference: ""`, `null`, `undefined` and `false` all count as missing.

A direct `auth()` call that fails changes nothing, so `logged` keeps its
previous value. Only `callApi` clears `logged` before it authenticates.

## Model

| member | source | states |
|---|---|---|
| JsValues.FalsyValues | lib/account.js:279 | `!x` holds exactly for `undefined`, `null`, `false`, `0` and `""` |
| JsValues.Utf16Length | lib/account.js:283 | a string's `length` lies between its character count and twice it, equals the count exactly when no character is astral, and equals twice the count exactly when every character is astral |
| Sessions.Construct | lib/account.js:159-169 | a new account is not logged, has `null` token fields, keeps the credentials given, and is stale at every time |
| Sessions.StaleIffNotFresh | lib/account.js:142 | on a consistent session, the code's re-authentication test is exactly the negation of "logged and token age strictly below `expiresIn`" |
| Sessions.ExpiryBoundary | lib/account.js:142 | a token issued at `c` with window `e` is fresh at `c + e - 1`, stale at `c + e`, and stale exactly from `c + e` on |
| Sessions.AuthStep | lib/account.js:176-191 | one call `auth(email, password)`; on success the session is logged, issued at the reply time, carries the reply's five token fields, keeps its credentials, resolves to itself and stays fresh exactly until `expires_in` seconds pass; on failure the rejection passes through and the session is unchanged |
| Dispatch.CallApi | lib/account.js:139-148 | fresh: exactly one operation call with the stored token and the payload, with the session unchanged; stale: an authentication with the stored credentials comes first; if it is granted, one operation call follows with the new token and no payload, and the session is logged, issued at the reply time, and carries the reply's token, window, `jti`, `scope` and `tokenType`; if it is denied, no operation call is made, the rejection passes through and `logged` is false; the result is the operation's reply unchanged |
| Dispatch.AuthenticatesIffStale | lib/account.js:142-147 | a dispatch makes one authentication call if the session is stale and none if it is fresh; it makes one operation call unless re-authentication was denied |
| Dispatch.StalePathIgnoresPayload | lib/account.js:143-144 | on a stale session the dispatch is the same whatever payload was given |
| Endpoints.OperationNameInjective | lib/account.js:198-287 | two account methods reach the same remote operation exactly when they are the same method |
| Endpoints.CheckTransfer | lib/account.js:278-285 | a nullish request throws; otherwise `MISSING_PARAMS` iff some required field is falsy; `REFERENCE_TOO_LONG` iff all are truthy and the reference's length exceeds 135; valid otherwise |
| Endpoints.Invoke | lib/account.js:198-288 | a refused transfer makes no remote call, leaves the session alone and settles with its error; every other call is `callApi` with the method's operation name and payload; all operation calls carry that name |
| Scenarios.TooLongForStrings | lib/account.js:283 | a string reference is too long exactly when it has more than 135 UTF-16 code units; a number or boolean reference never is |
| Scenarios.MissingFieldRefused | lib/account.js:279-281 | a request with any falsy required field rejects with `'MISSING_PARAMS'`, with an empty trace and the session unchanged |
| Scenarios.FalsyEdgeCases | lib/account.js:279 | `amount: 0`, `reference: ""` and `pin: null` each count as missing, and a missing field wins over a too long reference |
| Scenarios.ReferenceLengthBoundary | lib/account.js:283-285 | with every field truthy, a reference of 135 code units passes and one of 136 is refused |
| Scenarios.ValidTransferDispatched | lib/account.js:287 | a valid request on a fresh session is sent as `createTransfer` with the request as its payload |
| Scenarios.FreshMe | lib/account.js:142-147 | a session issued 10 s ago with a 3600 s window calls `getMe` once with its token and never authenticates |
| Scenarios.StaleTransactions | lib/account.js:142-144 | a session issued 4000 s ago with a 3600 s window authenticates once, then calls `getTransactions` once with the new token and no options |
| Scenarios.FirstCallAuthenticates | lib/account.js:159-169 | the first call of an operation method on a new account, a transfer that passes its checks included, starts with an authentication using its credentials |
| Runs.Perform | lib/account.js:176-191 | one request, either a direct `auth()` (exactly one authentication with the stored credentials) or an operation method: credentials kept, consistency kept, at most two remote calls, every authentication with the stored credentials, and a payload dropped only right after an authentication |
| Runs.Run | lib/account.js:139-148 | over any sequence of direct `auth()` calls and operation methods: one settlement per request, the credentials never change, consistency is preserved, at most two remote calls per request, and a run without remote calls leaves the session as it was |
| Runs.RunUsesCredentials | lib/account.js:144 | over any sequence of requests, including direct `auth()` calls, every authentication presents the credentials the account was built with |
| Runs.RunStartsLogged | lib/account.js:142-147 | over any sequence of requests, a run whose first remote call is an operation started on a logged session |
| Runs.RunEndsAfterDenial | lib/account.js:143-144 | over any sequence of the eight operation methods, a run whose last remote call is an authentication ends with the session not logged |
| Runs.RunDropsOnlyAfterAuth | lib/account.js:144-147 | over any sequence of requests, including direct `auth()` calls, an operation call without its payload comes straight after an authentication |
| Runs.RunPayloadShape | lib/account.js:144-147 | over any sequence of the eight operation methods, an operation call lacks its payload exactly when it comes straight after an authentication |
| Runs.DirectAuthThenCall | lib/account.js:142-147 | a granted direct `auth()` followed by `me()` puts `getMe` with its payload straight after the authentication, so the exact payload shape fails once direct `auth()` calls are steps |
| Runs.RunCallCounts | lib/account.js:142-147 | over any sequence of requests there are at most as many authentications, and at most as many operation calls, as requests |
| Runs.StepCallCounts | lib/account.js:142-147 | one request authenticates at most once and calls at most one operation |

## Left out

- The remote `api` module and all HTTP behaviour. Its replies are inputs to the model (`AuthReply`, `OpReply`). The module lib/api.js is not part of this model.
- Bluebird promises, `.bind` and `asCallback`. Settlements are `Outcome` values, and the node-style callback is not modelled.
- The wall clock `+new Date() / 1000` is a float. It is given as integer parameters `now` and `authNow`.
- Concurrent calls on one session. Two overlapping re-authentications, where the last one to finish overwrites the token, are an interleaving of asynchronous code. The model runs calls one after another.
- The JSDoc response typedefs (lib/account.js:6-128). They describe data shapes and have no behaviour.
- NaN and the infinities as JavaScript numbers. `expires_in` is taken to be an integer number of seconds, never `undefined` or a string.
- Strings are sequences of Unicode scalar values, so lone surrogates cannot be represented.
- Property reads see only an object's own data properties. No prototype-chain lookup and no getters are modelled. None of the fields read is an inherited member of a built-in prototype.
- Endpoints.CheckTransfer: when the reference is an object whose `length` property is a string or an object, `length > 135` is taken as false. The model does not convert that value to a number.
- The `TypeError` thrown by `transfer(undefined)` or `transfer(null)` is modelled as `Threw("TypeError")`. Its message is not modelled.
