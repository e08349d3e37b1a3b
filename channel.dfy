/** `DefaultChannel`: the proxy for one desktop-agent channel. It turns
    `broadcast` and `getCurrentContext` into request/response exchanges keyed
    by the channel's id, and `addContextListener` into a registered context
    listener for that channel. */
module Channels {
  import opened Wrappers
  import opened Messages

  const BROADCAST_RESPONSE := "broadcastResponse"
  const GET_CURRENT_CONTEXT_RESPONSE := "getCurrentContextResponse"

  /** The first argument of `addContextListener`, which is untyped: `null` or
      `undefined`, a context type string, or anything else, which the
      deprecated one-argument form passes as the handler. */
  datatype ListenerFirstArg = Nullish | Text(contextType: string) | OtherValue(asHandler: HandlerRef)

  /** The canonical `(contextType, handler)` pair; `None` stands for `null`
      (every context type) and for an absent handler. */
  datatype ListenerArgs = ListenerArgs(contextType: Option<string>, handler: Option<HandlerRef>)

  /** The argument normalisation at the head of `addContextListener`. */
  function NormaliseListenerArgs(first: ListenerFirstArg, handler: Option<HandlerRef>): (r: ListenerArgs)
    ensures r.contextType.Some? <==> first.Text?
    ensures first.Text? ==> r.contextType == Some(first.contextType)
    ensures first.OtherValue? ==> r.handler == Some(first.asHandler)
    ensures !first.OtherValue? ==> r.handler == handler
  {
    match first
    case Nullish => ListenerArgs(None, handler)
    case Text(t) => ListenerArgs(Some(t), handler)
    case OtherValue(h) => ListenerArgs(None, Some(h))
  }

  /** The first argument a caller of the two-argument form passes for a
      context type filter: the string itself, or `null` for every type. */
  function FirstArgFor(contextType: Option<string>): ListenerFirstArg {
    match contextType
    case None => Nullish
    case Some(t) => Text(t)
  }

  /** The two-argument form hands its filter and handler through unchanged;
      an empty string is a filter, not `null`. */
  lemma TwoArgumentFormRoundTrip(contextType: Option<string>, h: HandlerRef)
    ensures NormaliseListenerArgs(FirstArgFor(contextType), Some(h)) == ListenerArgs(contextType, Some(h))
  {
  }

  /** The deprecated one-argument form listens to every context type with the
      first argument as handler; a second argument is ignored. */
  lemma DeprecatedFormRoundTrip(h: HandlerRef, ignored: Option<HandlerRef>)
    ensures NormaliseListenerArgs(OtherValue(h), ignored) == ListenerArgs(None, Some(h))
  {
  }

  /** `payload.context` of a `getCurrentContextResponse`. */
  datatype MaybeContext = Undefined | Null | Present(context: Context)

  /** `context ?? null`: both absent forms become `null` (`None`). */
  function ContextOrNull(c: MaybeContext): (r: Option<Context>)
    ensures r.Some? <==> c.Present?
    ensures c.Present? ==> r.value == c.context
  {
    match c
    case Present(x) => Some(x)
    case _ => None
  }

  /** A context listener: the channel it listens on (`None` for none), the
      context type it filters on (`None` for every type), its handler, and
      whether its registration with the agent was acknowledged. */
  class ContextListener {
    const messaging: Messaging
    const channelId: Option<string>
    const contextType: Option<string>
    const handler: Option<HandlerRef>
    var registered: bool

    constructor(messaging: Messaging, channelId: Option<string>, contextType: Option<string>, handler: Option<HandlerRef>)
      ensures this.messaging == messaging && this.channelId == channelId
      ensures this.contextType == contextType && this.handler == handler
      ensures !registered
    {
      this.messaging := messaging;
      this.channelId := channelId;
      this.contextType := contextType;
      this.handler := handler;
      registered := false;
    }

    /** `register()`: the registration exchange. Its request is built by the
        listener base, so what it sends on `messaging` is the parameter
        `registrationSent`; `ack` is the agent's answer. */
    method Register(registrationSent: seq<Outbound>, ack: Result<(), ExchangeError>) returns (r: Result<(), ExchangeError>)
      modifies this`registered, messaging
      ensures messaging.sent == old(messaging.sent) + registrationSent
      ensures registered == ack.Success?
      ensures r == ack
    {
      messaging.sent := messaging.sent + registrationSent;
      registered := ack.Success?;
      r := ack;
    }
  }

  class DefaultChannel {
    const messaging: Messaging
    const id: string
    const channelType: ChannelType
    const displayMetadata: Option<DisplayMetadata>

    constructor(messaging: Messaging, id: string, channelType: ChannelType, displayMetadata: Option<DisplayMetadata>)
      ensures this.messaging == messaging && this.id == id
      ensures this.channelType == channelType && this.displayMetadata == displayMetadata
    {
      this.messaging := messaging;
      this.id := id;
      this.channelType := channelType;
      this.displayMetadata := displayMetadata;
    }

    /** `broadcast`: exchange a `broadcastRequest` for this channel. `meta` is the
        messaging layer's fresh metadata and `reply` the awaited answer. */
    method Broadcast(context: Context, meta: RequestMeta, reply: Result<(), ExchangeError>) returns (r: Result<(), ExchangeError>)
      modifies messaging
      ensures messaging.sent == old(messaging.sent) + [Exchanged(BroadcastRequest(meta, id, context), BROADCAST_RESPONSE)]
      ensures r == reply
    {
      messaging.Exchange(BroadcastRequest(meta, id, context), BROADCAST_RESPONSE);
      r := reply;
    }

    /** `getCurrentContext`: ask the agent for this channel's latest context,
        optionally of one type, and answer with it or with `null`. */
    method GetCurrentContext(contextType: Option<string>, meta: RequestMeta, reply: Result<MaybeContext, ExchangeError>)
      returns (r: Result<Option<Context>, ExchangeError>)
      modifies messaging
      ensures messaging.sent == old(messaging.sent) + [Exchanged(GetCurrentContextRequest(meta, id, contextType), GET_CURRENT_CONTEXT_RESPONSE)]
      ensures reply.Success? ==> r.Success? && (r.value.Some? <==> reply.value.Present?)
      ensures reply.Success? && reply.value.Present? ==> r == Success(Some(reply.value.context))
      ensures reply.Failure? ==> r == Failure(reply.error)
    {
      messaging.Exchange(GetCurrentContextRequest(meta, id, contextType), GET_CURRENT_CONTEXT_RESPONSE);
      match reply {
        case Success(response) => r := Success(ContextOrNull(response));
        case Failure(e) => r := Failure(e);
      }
    }

    /** `addContextListener`: normalise the arguments, then register. */
    method AddContextListener(first: ListenerFirstArg, handler: Option<HandlerRef>,
                              registrationSent: seq<Outbound>, ack: Result<(), ExchangeError>)
      returns (r: Result<ContextListener, ExchangeError>)
      modifies messaging
      ensures messaging.sent == old(messaging.sent) + registrationSent
      ensures r.Success? <==> ack.Success?
      ensures r.Failure? ==> r.error == ack.error
      ensures r.Success? ==> fresh(r.value) && r.value.registered && r.value.messaging == messaging &&
                             r.value.channelId == Some(id) &&
                             ListenerArgs(r.value.contextType, r.value.handler) == NormaliseListenerArgs(first, handler)
    {
      var contextType: Option<string>;
      var theHandler: Option<HandlerRef>;
      if first.Nullish? {
        contextType, theHandler := None, handler;
      } else if first.Text? {
        contextType, theHandler := Some(first.contextType), handler;
      } else {
        contextType, theHandler := None, Some(first.asHandler);
      }
      r := AddContextListenerInner(contextType, theHandler, registrationSent, ack);
    }

    /** `addContextListenerInner`: create the listener for this channel and
        await its registration, which sends `registrationSent` and is answered
        with `ack`. */
    method AddContextListenerInner(contextType: Option<string>, handler: Option<HandlerRef>,
                                   registrationSent: seq<Outbound>, ack: Result<(), ExchangeError>)
      returns (r: Result<ContextListener, ExchangeError>)
      modifies messaging
      ensures messaging.sent == old(messaging.sent) + registrationSent
      ensures r.Success? <==> ack.Success?
      ensures r.Failure? ==> r.error == ack.error
      ensures r.Success? ==> fresh(r.value) && r.value.registered && r.value.messaging == messaging &&
                             r.value.channelId == Some(id) &&
                             r.value.contextType == contextType && r.value.handler == handler
    {
      var listener := new ContextListener(messaging, Some(id), contextType, handler);
      var registration := listener.Register(registrationSent, ack);
      match registration {
        case Success(_) => r := Success(listener);
        case Failure(e) => r := Failure(e);
      }
    }
  }
}
