/** Properties of the dispatcher that relate several calls or several
    handler behaviours, and two worked exchanges. */
module DispatchFacts {

  import opened Wrappers
  import opened JsValues
  import opened Dispatcher

  /** When routing finds no truthy callback, the reply is a synthesized
      error, identical whatever the handlers would have done: no handler runs. */
  lemma RoutingErrorRunsNoHandler(cfg: Config, b1: Behaviour, b2: Behaviour, msg: Inbound)
    requires !Truthy(Selected(cfg, msg.tag))
    ensures OnIncoming(cfg, b1, msg) == OnIncoming(cfg, b2, msg)
    ensures msg.tag.None? ==> OnIncoming(cfg, b1, msg) == Now(RoutingFailure(msg.id, NoDefaultMessage))
    ensures msg.tag.Some? ==> OnIncoming(cfg, b1, msg) == Now(RoutingFailure(msg.id, NoHandlerMessage(msg.tag.value)))
  {
  }

  /** A labelled message never reaches a default callback: with a default
      installed the registry is empty, so every label is unknown. */
  lemma LabelledMessageBypassesDefault(cfg: Config, beh: Behaviour, msg: Inbound)
    requires cfg.Default? && msg.tag.Some?
    ensures Eventual(cfg, beh, msg) == Some(RoutingFailure(msg.id, NoHandlerMessage(msg.tag.value)))
  {
  }

  /** Registering an object installs no default callback: a message without
      a type gets the no-default error, and a typed message reaches the
      object's own entry for that type exactly when the entry is truthy. */
  lemma RegisteredObjectRoutes(props: map<string, Value>, beh: Behaviour, msg: Inbound)
    ensures Register(Obj(props)).Some?
    ensures var cfg := Register(Obj(props)).value;
      && (msg.tag.None? ==> Eventual(cfg, beh, msg) == Some(RoutingFailure(msg.id, NoDefaultMessage)))
      && (msg.tag.Some? && msg.tag.value in props && Truthy(props[msg.tag.value]) ==>
            OnIncoming(cfg, beh, msg) == HandleIncoming(beh, props[msg.tag.value], msg.id, msg.payload))
      && (msg.tag.Some? && !(msg.tag.value in props && Truthy(props[msg.tag.value])) ==>
            Eventual(cfg, beh, msg) == Some(RoutingFailure(msg.id, NoHandlerMessage(msg.tag.value))))
  {
  }

  /** Registering anything but an object (or null) installs it as the default
      callback and nothing else: a message without a type is handled by it
      when it is truthy, and every typed message gets the unknown-type error. */
  lemma RegisteredDefaultRoutes(arg: Value, beh: Behaviour, msg: Inbound)
    requires !IsObjectType(arg)
    ensures Register(arg).Some?
    ensures var cfg := Register(arg).value;
      && (msg.tag.None? && Truthy(arg) ==> OnIncoming(cfg, beh, msg) == HandleIncoming(beh, arg, msg.id, msg.payload))
      && (msg.tag.None? && !Truthy(arg) ==> Eventual(cfg, beh, msg) == Some(RoutingFailure(msg.id, NoDefaultMessage)))
      && (msg.tag.Some? ==> Eventual(cfg, beh, msg) == Some(RoutingFailure(msg.id, NoHandlerMessage(msg.tag.value))))
  {
  }

  /** A truthy callback that is not a function passes routing, and the
      TypeError its call throws is caught and answered as a logged failure,
      whatever the handlers would have done. */
  lemma NonFunctionCallbackFails(cfg: Config, beh: Behaviour, msg: Inbound)
    requires Truthy(Selected(cfg, msg.tag)) && !Selected(cfg, msg.tag).Fn?
    ensures Eventual(cfg, beh, msg)
      == Some(Post(Some(NewError(NotCallableMessage)), Failure(msg.id, Str(NotCallableMessage))))
  {
  }

  /** When routing does find a truthy callback, that callback is what runs,
      on the message's payload, and the reply follows from its outcome alone. */
  lemma SelectedHandlerReceivesPayload(cfg: Config, beh: Behaviour, msg: Inbound, k: nat)
    requires Selected(cfg, msg.tag) == Fn(k)
    ensures var c := beh(k, msg.payload);
      && (c.Returned? ==> Eventual(cfg, beh, msg) == Some(Post(None, Success(msg.id, c.value))))
      && (c.Deferred? ==> Eventual(cfg, beh, msg) == OnSettled(msg.id, c.settlement))
      && (c.Threw? ==> Eventual(cfg, beh, msg) == Some(PostOutgoing(msg.id, c.error, Undefined)))
  {
  }

  /** Truthiness, not the kind of outcome, decides between the two reply
      shapes: a falsy thrown or rejected value yields a success reply with an
      undefined result and nothing logged. */
  lemma FalsyErrorRepliesSuccess(cfg: Config, beh: Behaviour, msg: Inbound, e: Value)
    requires Truthy(Selected(cfg, msg.tag)) && !Truthy(e)
    requires Invoke(beh, Selected(cfg, msg.tag), msg.payload) in {Threw(e), Deferred(Rejected(e))}
    ensures Eventual(cfg, beh, msg) == Some(Post(None, Success(msg.id, Undefined)))
  {
  }

  /** Registering `{ add: n => n + 1 }` and sending `[42, 5, "add"]` yields
      `[42, null, 6]`. The behaviour below agrees with `n => n + 1` on
      numbers only, the one case used; its value for other payloads is
      arbitrary (JavaScript would concatenate a string, and `null + 1` is 1). */
  lemma AddOneExchange()
    ensures var beh := (k: nat, v: Value) => if v.Num? then Returned(Num(v.n + 1)) else Returned(NaN);
      var cfg := Register(Obj(map["add" := Fn(0)]));
      && cfg.Some?
      && Eventual(cfg.value, beh, Inbound(Num(42), Num(5), Some("add")))
         == Some(Post(None, Success(Num(42), Num(6))))
  {
  }

  /** Registering a default handler that returns a promise rejected with
      `new Error("boom")` and sending `[7, null]` yields `[7, {message: "boom"}]`,
      with the error logged. */
  lemma RejectedPromiseExchange()
    ensures var beh := (k: nat, v: Value) => Deferred(Rejected(NewError("boom")));
      var cfg := Register(Fn(0));
      && cfg.Some?
      && Eventual(cfg.value, beh, Inbound(Num(7), Null, None))
         == Some(Post(Some(NewError("boom")), Failure(Num(7), Str("boom"))))
  {
  }
}
