# A verified model of a symmetric RPC endpoint over a worker message channel

`src/index.ts` is one side of a remote-procedure-call layer that runs over
the `worker_threads` message port. Each side keeps a function registry
(`fns`: method name to handler) and a pending-call table (`cbs`: call id to a
completion callback). `register` adds a handler. `invoke` mints an id, stores
a callback under it and posts an `RPCRequest`. The message listener `handle`
sends `RPCRequest`s to `handleRequest`, which runs the named handler and is
meant to post one `RPCResponse` (for the failures where it posts none, see
"## Findings"). It sends `RPCResponse`s to `handleResponse`, which finds
the callback by id and settles the caller's promise, or drops the response
when the id is unknown.

The model has four modules:

- `Wire` (`wire.dfy`): payload values, the three message shapes, handlers as
  opaque references, and thrown values seen through their `toString()`.
- `Protocol` (`protocol.dfy`): the endpoint as a state machine over a value
  `State(fns, cbs, promises, outbox)`, one function per operation. `promises`
  holds every promise `invoke` has returned, as `Pending`,
  `Resolved(value)` or `Rejected(message)`. Settlement is first-wins, as for
  JavaScript promises. Request handling posts the corrected reply
  `Protocol.Reply` (see "## Findings"), so the rows below for
  `Protocol.HandleRequest`, `Protocol.Handle`, `Protocol.HandleAll`,
  `Properties.AnswersEveryRequest`, `Properties.RepliesPairWithRequests` and
  `Properties.RoundTrip` hold for the corrected program; the source as written
  is `Protocol.ReplyAsWritten` and `Protocol.HandleRequestAsWritten`.
  `Valid` is the invariant that an id has a callback exactly while its
  promise is pending.
- `Properties` (`properties.dfy`): lemmas over runs of messages and over two
  endpoints talking to each other.
- `Rpc` (`rpc.dfy`): the class `Endpoint`, whose fields are the two maps, the
  promises and the outbox. Its methods update them in place. Each method is
  specified by the matching `Protocol` function and keeps `Valid`. A client
  method at the end exercises two endpoints.

`postMessage` appends to `outbox`. Inbound messages are explicit calls to
`Handle`. The fresh `uuid()` is an id supplied by the caller that no earlier
call used. A handler's eventual outcome is given by a parameter
`exec: (Handler, Value) -> Outcome`. The outcome is the value its promise
resolves with, or what it threw or rejected with.

`handleResponse` keeps a quirk on its error path. When `errstr` is a string,
the callback runs twice: once with the error and once without. The second run
deletes the already-deleted entry and resolves an already-rejected promise,
which changes nothing. `Protocol.HandleResponse` models both runs and proves
that the promise ends `Rejected(errstr)`.

A caller might expect a handler that throws `Error("boom")` to make its
promise reject with the message `"boom"`. The code produces `"Error: boom"`. The
serving side sends `error.toString()`, and the calling side wraps that text
in a new `Error`. The model follows the code (`Properties.ThrownErrorKeepsItsPrefix`).

## Model

| member | source | states |
|---|---|---|
| `Protocol.Initial` | src/index.ts:10-11 | both tables start empty, there are no promises and nothing is posted, and the invariant holds |
| `Rpc.Endpoint.constructor` | src/index.ts:10-11 | a new endpoint has empty tables, no promises and an empty outbox (the state `Protocol.Initial` gives) |
| `Protocol.Register` | src/index.ts:13-19 | fails with "Mutiple registeration" exactly when the name is already registered, and then the registry is unchanged; otherwise it adds exactly `name -> fn`, keeps every other entry, and leaves the pending table, promises and outbox alone |
| `Rpc.Endpoint.Register` | src/index.ts:13-19 | the in-place register: returns a failure exactly on a duplicate name and changes nothing then; otherwise the new state is `Protocol.Register`'s |
| `Protocol.Invoke` | src/index.ts:21-30 | a fresh id gets exactly one new pending entry with a `Pending` promise, other promises are unchanged, and exactly one `RPCRequest{asyncID, method, args, cfg}` is appended to the outbox; the invariant is kept |
| `Rpc.Endpoint.Invoke` | src/index.ts:21-30 | the in-place invoke: the new state is `Protocol.Invoke`'s and the id's promise is pending |
| `Protocol.Settle` | src/index.ts:26-27 | `resolve` and `reject` settle a pending promise and leave a settled one as it was |
| `Protocol.SettleFirstWins` | src/index.ts:26-27 | once a promise is settled, any further `resolve` or `reject` leaves it as the first one set it |
| `Protocol.Callback` | src/index.ts:24-28 | the stored callback removes its id (only that id) and settles that id's promise, rejected when an error is given and resolved otherwise; a promise already settled keeps its settlement; other promises, registry and outbox are unchanged |
| `Rpc.Endpoint.Callback` | src/index.ts:24-28 | the in-place callback matches `Protocol.Callback` and keeps `Valid` |
| `Protocol.ResponseSettlement` | src/index.ts:69-70 | a response rejects exactly when its `error` field is a string, and never leaves the promise pending |
| `Protocol.HandleResponse` | src/index.ts:63-71 | an id with no pending entry changes nothing (an orphan or repeated response); a pending id is removed, alone, from the table and its promise becomes `Rejected(errstr)` when `errstr` is a string and `Resolved(result)` otherwise, even though the callback runs twice on the error path; no other promise changes |
| `Rpc.Endpoint.HandleResponse` | src/index.ts:63-71 | the in-place response handler matches `Protocol.HandleResponse` and keeps the invariant |
| `Protocol.NoSuchMethod` | src/index.ts:45 | the error for an unregistered method has the text "Error: No such method" |
| `Wire.ErrorObject` | src/index.ts:45 | `new Error(message)` prints as "Error: " and the message, or "Error" for an empty message |
| `Protocol.Execute` | src/index.ts:43-47 | the request's promise settles with the registered handler's outcome, or with the no-such-method error when the name is unregistered |
| `Protocol.ToStringAsWritten` | src/index.ts:58 | `toString()` gives the text of a thrown value and throws on `undefined` and `null` |
| `Protocol.Reply` | src/index.ts:42-60 | the response carries the request's id, never both `result` and `error`, the no-such-method text for an unregistered name, and the caller reading it settles exactly as the handler's outcome (resolved with its value, or rejected with its text) |
| `Protocol.ReplyAsWritten` | src/index.ts:54-59 | as written, no response is produced exactly when the outcome is a rejection with `undefined` or `null`; in every other case the response is `Protocol.Reply`'s |
| `Protocol.HandleRequestAsWritten` | src/index.ts:42-61 | as written, handling a request changes neither tables nor promises and appends the as-written response, or nothing when there is none |
| `Protocol.HandleRequest` | src/index.ts:42-61 | handling a request appends exactly one message, the reply for that request, and changes neither tables nor promises |
| `Rpc.Endpoint.HandleRequest` | src/index.ts:42-61 | the in-place request handler matches `Protocol.HandleRequest` |
| `Wire.Message.Type` | src/index.ts:34-36 | a message's `type` is "RPCRequest" exactly for a request and "RPCResponse" exactly for a response |
| `Protocol.Handle` | src/index.ts:33-38 | `RPCRequest` goes to the request handler, `RPCResponse` to the response handler, and any other type changes nothing; the registry and the set of issued ids never change, and the invariant is kept |
| `Rpc.Endpoint.Handle` | src/index.ts:33-38 | the in-place listener matches `Protocol.Handle` |
| `Protocol.HandleAll` | src/index.ts:40 | a run of inbound messages keeps the invariant, the registry and the set of issued ids |
| `Properties.SettledByFirstResponse` | src/index.ts:24-28 | after any run of messages, a promise is settled by the first response carrying its id if it was pending, and is otherwise unchanged: responses are matched by id alone, in any order, with no cross-talk |
| `Properties.SettlesAtMostOnce` | src/index.ts:63-70 | a settled promise never changes again and its id never returns to the pending table |
| `Properties.DuplicateResponseDropped` | src/index.ts:64-68 | a second response for the same id leaves the whole state unchanged |
| `Properties.AnswersEveryRequest` | src/index.ts:33-61 | handling a run of messages appends exactly the replies to its requests and nothing else |
| `Properties.RepliesPairWithRequests` | src/index.ts:42-60 | there is one reply per request; the i-th reply carries the i-th request's id and settles the caller as the named handler's outcome |
| `Properties.RoundTrip` | src/index.ts:21-71 | a call issued on one endpoint, served by the other and answered back settles with the outcome of the handler registered on the serving side, and the caller's pending table returns to what it was |
| `Properties.ThrownErrorKeepsItsPrefix` | src/index.ts:58-69 | a handler throwing `new Error("boom")` makes the caller reject with the message "Error: boom" |
| `Properties.ResponsesInReverseOrder` | src/index.ts:24-28 | two outstanding calls answered in reverse order each settle with their own response |
| `Properties.NullRejectionGoesUnanswered` | src/index.ts:54-59 | as written, a handler that rejects with `null` or `undefined` gets no response |
| `Properties.NullRejectionLeavesCallerPending` | src/index.ts:21-30 | as written, when the serving handler rejects with `null`, what the serving side posts in answer to the request carries no response for the call's id; when the caller receives those messages and then any others without such a response, its promise stays pending and its callback stays in the table |

## Left out

- The `worker_threads` transport (`parentPort.postMessage` and `parentPort.on`). Posting is appending to `outbox`, and delivery is an explicit call to `Handle`.
- `uuid()`. It is a foreign call, so the model takes the id as a parameter that no earlier call on this side used.
- `console.log` diagnostics at lines 18 and 66. They are output only.
- Promise scheduling and asynchrony, including handlers that return promises. The handler's eventual outcome is the `exec` parameter.
- Side effects of handlers on the endpoint, such as a nested `invoke` from inside a handler. `exec` is a pure function of the handler and its arguments.
- Properties.AnswersEveryRequest: the replies are stated in request order. The source posts each reply when its handler's promise settles, so replies to concurrent requests can leave in another order and after later messages were handled, or never, for a handler whose promise never settles or that never returns: `exec` gives every handler an outcome.
- `Error.prototype.toString` for arbitrary thrown values. A thrown value is abstracted to the text its `toString()` returns, or to `undefined`/`null`, which have none.
- Wire.Thrown assumes that every thrown value other than `undefined` and `null` has a `toString` that returns a string. A value whose `toString` is missing (an object with a null prototype) or throws also gets no response at all; one whose `toString` returns a non-string is posted as a non-string `error`, and the caller then resolves with `undefined` instead of rejecting. Neither case is represented.
- Messages that are not objects, or whose `asyncID` or `method` is not a string. `Message` forces the request and response shapes. In the source a non-string `method` is answered with "No such method", and a `null` or `undefined` message makes `msg.type` throw in the listener; any other primitive has `type` undefined and is ignored, as `Other(Undefined)` is.
- A `postMessage` that throws on a result the channel cannot clone. In the source the `.catch` would then post an error response instead; the model assumes every result can be posted.
- An `invoke` whose `args` or `cfg` the channel cannot clone (a function, say). `Wire.Value` holds only clonable values, so `Protocol.Invoke`'s `postMessage` cannot fail. In the source the `postMessage` at line 29 then throws inside the promise executor: the returned promise rejects at once, but the `cbs` entry set at line 24 is never deleted, a state that `Protocol.Valid` (a callback exactly while the promise is pending) rules out.
- A handler registered as a falsy value. `handleRequest` would then report "No such method" for a registered name; the model takes every handler to be a function.
- Numbers in payloads are integers, not IEEE doubles. Payloads are only passed through, so nothing depends on this.
- The empty `IRPCFnContext` and the `cfg` argument of `handleRequest` are passed through or ignored.
- `registerEx`, argument spreading and the `log` message type are not in `src/index.ts` and are not modelled. A `log` message is one of the `Other` messages that `handle` ignores.

## Findings

| source | as written | input that shows it | evidently intended | confidence | as-written member | corrected member |
|---|---|---|---|---|---|---|
| src/index.ts:54-59 | the failure path turns the rejection reason into text by calling its `toString` method; for a reason of `null` or `undefined` that call throws inside the `.catch` callback, so no `RPCResponse` is posted and the caller's promise stays pending forever | a registered handler that returns `Promise.reject(undefined)` or throws `null`; more generally, any reason without a callable, string-returning `toString` | every failure is answered with an `error` string, here `String(reason)`, i.e. "undefined" or "null" | high, not executed | `Protocol.ReplyAsWritten` and `Protocol.HandleRequestAsWritten`, shown by `Properties.NullRejectionGoesUnanswered` and `Properties.NullRejectionLeavesCallerPending` | `Protocol.Reply`, with `Properties.AnswersEveryRequest` and `Properties.RepliesPairWithRequests`; `Rpc.Endpoint.HandleRequest` uses it |
