# promise-worker dispatcher, modelled in Dafny

This project models `register.js`, the worker side of a promise-based
request/reply protocol over a one-way message channel. A worker calls
`register` with either one function, which becomes the default handler, or an
object mapping message types to handlers, which becomes the registry. From
then on, each inbound message `[id, payload, type?]` is routed to a handler.
The handler is called on the payload inside a try/catch. For a worker that
calls `register` once, its outcome becomes exactly one reply: `[id, null, result]` on success, `[id, {message}]` on
failure. A handler that returns a promise is answered when the promise settles.

Modules:

- `Wrappers` (values.dfy): `Option`.
- `JsValues` (values.dfy): the JavaScript values involved and the
  language rules the dispatcher relies on: truthiness, `typeof … === 'object'`,
  the `.message` read and `new Error(text)`. Functions are references `Fn(k)`.
- `Dispatcher` (dispatcher.dfy): `register`, `postOutgoingMessage`,
  `tryCatchFunc`, `handleIncomingMessage` and `onIncomingMessage`, as pure
  functions. A handler's behaviour is a parameter `(nat, Value) -> Outcome`.
  The closed type `Outcome = Returned | Threw | Deferred(Fulfilled | Rejected | Unsettled)`
  stands for the try/catch and the `isPromise` probe. A posted reply is
  a `Post` value, which records what was passed to `console.error`, if anything.
- `DispatchFacts` (properties.dfy): routing and outcome properties across
  handler behaviours, the routing each kind of `register` argument sets up,
  and two worked exchanges.
- `Envelope` (envelope.dfy): the array shapes of a reply, and the caller's
  reading of them (the second element's truthiness selects reject or resolve).
  This reading is the partner of the encoding.
- `EventLoop` (eventloop.dfy): the listener over time. Events are message
  arrivals and promise settlements. The invariant says every received request
  is answered exactly once or is still waiting on its promise. It also says each
  reply is the one its own request determines. Handlers may keep state
  between calls: what a call does is a parameter indexed by the arrival index
  of the request it serves, `(nat, nat, Value) -> Outcome`.

Routing errors ("no handler") are logged to the console too:
`postOutgoingMessage` logs every truthy error (register.js:11-17), and both
routing errors pass a fresh `Error` (lines 60-61, 68-69).
`Dispatcher.RoutingFailure` therefore carries the logged error.

## Model

| member | source | states |
|---|---|---|
| JsValues.NewError | register.js:60-61 | A constructed `Error` is truthy and its `message` is exactly the text it was built from |
| Dispatcher.Register | register.js:76-82 | Configuration is exclusive. An object's own keys and values become the registry, with no default callback. Any other value becomes the default callback, with an empty registry. `null` makes `register` throw |
| Dispatcher.PostOutgoing | register.js:10-25 | The reply carries the given id. It is a failure exactly when the error is truthy, and then the error is logged and its `.message` is sent. Otherwise the reply is a success with the given result and nothing is logged |
| Dispatcher.OnSettled | register.js:43-48 | A fulfilled promise posts `[id, null, v]`. A promise rejected with a truthy reason posts and logs `[id, {message: reason.message}]`. A promise rejected with a falsy reason posts a success with `undefined`. An unsettled promise posts nothing |
| Dispatcher.HandleIncoming | register.js:35-50 | Nothing is posted at dispatch time exactly when the handler returned a promise, and the id is kept for the settlement. A plain return posts `[id, null, v]`. A truthy throw posts the error reply and is logged. A falsy throw posts a success with `undefined` |
| Dispatcher.OnIncoming | register.js:52-74 | With no type and no truthy default, the reply is the error `No default message handler registered`. With a type whose registry entry is missing or falsy, the reply is `No message handler registered for type: "<type>"`. Otherwise the selected callback handles the payload under the message's id |
| Dispatcher.Eventual | register.js:35-74 | Every eventual reply carries the request's id. It is logged exactly when it is a failure, and then its message is the logged error's. A request goes unanswered exactly when its handler's promise never settles |
| DispatchFacts.RoutingErrorRunsNoHandler | register.js:58-69 | When no truthy callback is selected, the reply is the routing error, and it is the same for every handler behaviour: no handler is invoked |
| DispatchFacts.LabelledMessageBypassesDefault | register.js:65-69 | With a default handler installed, any message with a type gets the unknown-type error, because the registry is empty |
| DispatchFacts.RegisteredObjectRoutes | register.js:58-82 | After registering an object, a message without a type gets the no-default error. A typed message is handled by the object's own entry for that type exactly when the entry is truthy, and otherwise gets the unknown-type error |
| DispatchFacts.RegisteredDefaultRoutes | register.js:58-82 | After registering a non-object, a message without a type is handled by that value when it is truthy and gets the no-default error when it is falsy. Every typed message gets the unknown-type error |
| DispatchFacts.NonFunctionCallbackFails | register.js:27-40 | A truthy callback that is not a function passes routing. The TypeError its call throws is caught and answered as a logged failure carrying the TypeError's message, whatever the handlers would have done |
| DispatchFacts.SelectedHandlerReceivesPayload | register.js:58-73 | The selected function gets the message payload. Its return, throw or promise alone fixes the reply, under the same id |
| DispatchFacts.FalsyErrorRepliesSuccess | register.js:11-23 | A falsy thrown or rejected value gives a success reply with an undefined result and no log |
| DispatchFacts.AddOneExchange | register.js:76-79 | Registering `{add: n => n + 1}` and sending `[42, 5, "add"]` yields `[42, null, 6]` |
| DispatchFacts.RejectedPromiseExchange | register.js:43-48 | A default handler rejecting with `Error("boom")` answers `[7, null]` with `[7, {message: "boom"}]` and logs the error |
| Envelope.Encode | register.js:19-23 | A failure is the two-element `[id, {message}]` whose object has only `message`. A success is the three-element `[id, null, result]` |
| Envelope.Decode | register.js:19-23 | A reading exists exactly when the array holds an id, and it keeps that id. It reads a failure exactly when the second element is truthy |
| Envelope.DecodeEncode | register.js:19-23 | Every reply the worker posts reads back as itself |
| Envelope.EncodeInjective | register.js:19-23 | Different replies are posted as different arrays |
| EventLoop.Run | register.js:35-74 | After any sequence of arrivals and settlements, every received request has exactly one reply or is waiting on its promise, never both. A waiting request is one whose handler returned a promise. Every reply equals the one its own request determines from its payload, type and handler call, whatever else is in flight |
| EventLoop.StepKeepsConsistent | register.js:35-74 | One arrival or settlement preserves that invariant |
| EventLoop.RunExtends | register.js:84 | Later events only append: earlier received messages and posted replies are prefixes of later ones |
| EventLoop.NeverSettledNeverAnswered | register.js:43-48 | In every loop satisfying the invariant, a request whose handler's promise never settles has no reply and stays waiting |
| EventLoop.SettleAnswers | register.js:44-48 | Delivering the settlement of a request whose promise settles leaves it answered exactly once and no longer waiting |
| EventLoop.SettledAnsweredOnce | register.js:44-48 | Once a settlement has been delivered for a received request whose promise settles, every later point of the run shows that request answered exactly once and not waiting |
| EventLoop.RepliesMayOvertake | register.js:41-48 | A deferred first request is answered after an immediate second one |

## Left out

- Only one `register` call per worker is modelled. Each call adds its own listener (line 84) with its own `callbacks` and `defaultCallback` (lines 7-8), so after k calls every message is answered k times, once per listener. The "exactly one reply" of `EventLoop.Run` is per listener.
- JSON parsing and serialization (lines 19-23, 53): envelopes are datatypes. A malformed inbound payload, unguarded in the source, is not modelled. JSON's rendering of `undefined` (dropped from objects, `null` in arrays) is not modelled either.
- `JSON.stringify` failures (lines 19-23): a result it cannot serialize, such as a BigInt or a cyclic object, makes the post throw and leaves the request unanswered. `Value` cannot express such results, so every modelled reply is posted.
- `self.postMessage` and `self.addEventListener` (lines 19, 23, 84): transport I/O. A posted reply is a returned `Post`, and the listener is the `EventLoop` trace.
- `console.error` (lines 13-17): modelled only as the value recorded in `Post.logged`. The `typeof console` guard is taken as always true.
- `isPromise` duck typing and promise scheduling (lines 3, 41-48): replaced by the closed `Outcome` type. When a settlement is delivered is an input event, not a scheduler.
- Thenables that are not promises: a handler that returns a plain object with a callable `then` is modelled as `Returned`, which replies at once. The source calls that `then` (line 44), and it may run neither, one or both callbacks, so zero or several replies may be posted. Nothing in `Value` stops a behaviour from returning such an object.
- Prototype-chain lookups: `callbacks[type]` sees only own keys, so `"toString"` is not found. `.message` reads only an own property.
- Type labels are strings or absent. The property-key coercion of non-string labels is not modelled.
- Numbers are integers plus `NaN`; floating point is not modelled.
- The TypeError text for calling a non-function is the engine's own; the model fixes V8's wording.
- Handler bodies are outside the model: what each function reference does is a parameter. For a single dispatch it is `Behaviour`. For the event loop it is `Calls`, which also takes the arrival index, so a handler's result may depend on earlier calls.
