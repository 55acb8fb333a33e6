/**
 The request/reply dispatcher a worker installs with `register`: it picks a
 handler for each inbound `[id, payload, type?]` message, captures what the
 handler does, and posts one reply — `[id, null, result]` on success,
 `[id, {message}]` on failure. Transport, JSON and the console are outside the
 model; a posted reply is a returned value and the console call is a flag
 carrying the logged value.
 */
module Dispatcher {

  import opened Wrappers
  import opened JsValues

  /** The two closure variables `register` fills in: either a default callback
      (and an empty registry) or a registry (and no default callback). */
  datatype Config = Default(callback: Value) | Registry(callbacks: map<string, Value>)

  /** `defaultCallback`: `undefined` unless a default was installed. */
  function DefaultCallback(cfg: Config): Value {
    if cfg.Default? then cfg.callback else Undefined
  }

  /** `callbacks`: empty unless a registry was installed. */
  function Callbacks(cfg: Config): map<string, Value> {
    if cfg.Registry? then cfg.callbacks else map[]
  }

  /** `register(objectOrFunc)`: an object's own keys are copied into the
      registry, anything else becomes the default callback. `None` is the
      TypeError `Object.keys(null)` throws, as `typeof null === 'object'`. */
  function Register(arg: Value): (r: Option<Config>)
    ensures r.None? <==> arg == Null
    ensures r.Some? && IsObjectType(arg) ==>
      DefaultCallback(r.value) == Undefined && Callbacks(r.value) == arg.props
    ensures r.Some? && !IsObjectType(arg) ==>
      DefaultCallback(r.value) == arg && Callbacks(r.value) == map[]
  {
    match arg
    case Null => None
    case Obj(props) => Some(Registry(props))
    case _ => Some(Default(arg))
  }

  /** A decoded inbound message `[id, payload, type?]`; an absent third element
      is `None`. */
  datatype Inbound = Inbound(id: Value, payload: Value, tag: Option<string>)

  /** How a promise returned by a handler ends: fulfilled, rejected, or never. */
  datatype Settlement = Fulfilled(value: Value) | Rejected(reason: Value) | Unsettled

  /** What calling a handler does: return a plain (non-promise) value, throw
      synchronously, or return a promise. This closed type stands for the
      `isPromise` probe and the try/catch of the source. */
  datatype Outcome = Returned(value: Value) | Threw(error: Value) | Deferred(settlement: Settlement)

  /** The behaviour of the function behind each `Fn` reference: handler bodies
      are code outside the model, so they are a parameter. */
  type Behaviour = (nat, Value) -> Outcome

  /** The reply envelope: `[id, null, result]` or `[id, {message}]`. */
  datatype Reply = Success(id: Value, result: Value) | Failure(id: Value, message: Value)

  /** One call of `postOutgoingMessage`: the value passed to `console.error`,
      if it was called, and the reply posted. */
  datatype Post = Post(logged: Option<Value>, reply: Reply)

  /** What handling a message does at once: post a reply now, or wait for the
      settlement of a promise, holding on to the message id. */
  datatype Action = Now(post: Post) | Later(id: Value, settlement: Settlement)

  const NoDefaultMessage: string := "No default message handler registered"

  function NoHandlerMessage(tag: string): string {
    "No message handler registered for type: \"" + tag + "\""
  }

  /** The message of the TypeError thrown when a truthy callback is not a
      function (the wording is the JavaScript engine's; V8's is used here). */
  const NotCallableMessage: string := "callback is not a function"

  /** `postOutgoingMessage(messageId, error, result)`. */
  function PostOutgoing(id: Value, error: Value, result: Value): (p: Post)
    ensures p.reply.id == id
    ensures p.reply.Failure? <==> Truthy(error)
    ensures p.logged.Some? <==> Truthy(error)
    ensures p.reply.Failure? ==> p.logged == Some(error) && p.reply.message == MessageOf(error)
    ensures p.reply.Success? ==> p.reply.result == result
  {
    if Truthy(error) then Post(Some(error), Failure(id, MessageOf(error)))
    else Post(None, Success(id, result))
  }

  /** `tryCatchFunc(callback, message)`: calling the callback with the
      payload, with a synchronous throw captured as a value. Calling a value
      that is not a function throws a TypeError. */
  function Invoke(beh: Behaviour, callback: Value, message: Value): (c: Outcome)
    ensures callback.Fn? ==> c == beh(callback.ref, message)
    ensures !callback.Fn? ==> c == Threw(NewError(NotCallableMessage)) && Truthy(c.error)
  {
    if callback.Fn? then beh(callback.ref, message) else Threw(NewError(NotCallableMessage))
  }

  /** The posts `then` registers on a returned promise: the fulfilment
      callback posts a success, the rejection callback posts the reason as
      the error. A promise that never settles posts nothing. */
  function OnSettled(id: Value, s: Settlement): (p: Option<Post>)
    ensures p.None? <==> s.Unsettled?
    ensures s.Fulfilled? ==> p == Some(Post(None, Success(id, s.value)))
    ensures s.Rejected? && Truthy(s.reason) ==>
      p == Some(Post(Some(s.reason), Failure(id, MessageOf(s.reason))))
    ensures s.Rejected? && !Truthy(s.reason) ==> p == Some(Post(None, Success(id, Undefined)))
  {
    match s
    case Fulfilled(v) => Some(PostOutgoing(id, Null, v))
    case Rejected(e) => Some(PostOutgoing(id, e, Undefined))
    case Unsettled => None
  }

  /** `handleIncomingMessage(callback, messageId, message)`. The branch is
      chosen by the truthiness of the captured error, not by whether a throw
      happened: a falsy thrown value falls through to the non-promise branch,
      whose `result.res` is `undefined`. */
  function HandleIncoming(beh: Behaviour, callback: Value, id: Value, message: Value): (a: Action)
    ensures var c := Invoke(beh, callback, message);
      && (a.Later? <==> c.Deferred?)
      && (c.Deferred? ==> a == Later(id, c.settlement))
      && (c.Returned? ==> a == Now(Post(None, Success(id, c.value))))
      && (c.Threw? && Truthy(c.error) ==> a == Now(Post(Some(c.error), Failure(id, MessageOf(c.error)))))
      && (c.Threw? && !Truthy(c.error) ==> a == Now(Post(None, Success(id, Undefined))))
  {
    var c := Invoke(beh, callback, message);
    if c.Threw? && Truthy(c.error) then Now(PostOutgoing(id, c.error, Undefined))
    else if !c.Deferred? then Now(PostOutgoing(id, Null, if c.Returned? then c.value else Undefined))
    else Later(id, c.settlement)
  }

  /** The post for a routing error: a fresh `Error` with the given text, which
      `postOutgoingMessage` logs and whose message it replies with. */
  function RoutingFailure(id: Value, text: string): Post {
    Post(Some(NewError(text)), Failure(id, Str(text)))
  }

  /** The callback a message is routed to: the default callback for a message
      without a label, the registry entry (or `undefined`) for a labelled one. */
  function Selected(cfg: Config, tag: Option<string>): Value {
    match tag
    case None => DefaultCallback(cfg)
    case Some(t) => if t in Callbacks(cfg) then Callbacks(cfg)[t] else Undefined
  }

  /** `onIncomingMessage`, after decoding: route by label, answer a missing
      handler with a synthesized error, hand everything else to the handler. */
  function OnIncoming(cfg: Config, beh: Behaviour, msg: Inbound): (a: Action)
    ensures msg.tag.None? && !Truthy(DefaultCallback(cfg)) ==>
      a == Now(RoutingFailure(msg.id, NoDefaultMessage))
    ensures msg.tag.None? && Truthy(DefaultCallback(cfg)) ==>
      a == HandleIncoming(beh, DefaultCallback(cfg), msg.id, msg.payload)
    ensures msg.tag.Some? && !(msg.tag.value in Callbacks(cfg) && Truthy(Callbacks(cfg)[msg.tag.value])) ==>
      a == Now(RoutingFailure(msg.id, NoHandlerMessage(msg.tag.value)))
    ensures msg.tag.Some? && msg.tag.value in Callbacks(cfg) && Truthy(Callbacks(cfg)[msg.tag.value]) ==>
      a == HandleIncoming(beh, Callbacks(cfg)[msg.tag.value], msg.id, msg.payload)
  {
    match msg.tag
    case None =>
      if !Truthy(DefaultCallback(cfg)) then Now(RoutingFailure(msg.id, NoDefaultMessage))
      else HandleIncoming(beh, DefaultCallback(cfg), msg.id, msg.payload)
    case Some(t) =>
      var callback := Selected(cfg, msg.tag);
      if !Truthy(callback) then Now(RoutingFailure(msg.id, NoHandlerMessage(t)))
      else HandleIncoming(beh, callback, msg.id, msg.payload)
  }

  /** The reply a message eventually gets, whether posted at once or from a
      settlement callback; `None` when it is never answered. */
  function Eventual(cfg: Config, beh: Behaviour, msg: Inbound): (p: Option<Post>)
    ensures p.Some? ==> p.value.reply.id == msg.id
    ensures p.Some? ==> (p.value.logged.Some? <==> p.value.reply.Failure?)
    ensures p.Some? && p.value.reply.Failure? ==>
      Truthy(p.value.logged.value) && p.value.reply.message == MessageOf(p.value.logged.value)
    ensures p.None? <==>
      Truthy(Selected(cfg, msg.tag)) && Invoke(beh, Selected(cfg, msg.tag), msg.payload) == Deferred(Unsettled)
  {
    match OnIncoming(cfg, beh, msg)
    case Now(p) => Some(p)
    case Later(id, s) => OnSettled(id, s)
  }
}
