/** The message model shared by the proxy: the values carried in payloads,
    the outbound messages the listeners and channels build, and the
    messaging layer they send them through. */
module Messages {
  import opened Wrappers

  /** Milliseconds since the epoch, as read from `new Date()`. */
  type Timestamp = int

  /** A user-supplied callback (context or intent handler), known only by identity. */
  datatype HandlerRef = HandlerRef(token: nat)

  datatype AppIdentifier = AppIdentifier(appId: string, instanceId: Option<string>)

  datatype DisplayMetadata = DisplayMetadata(name: Option<string>, color: Option<string>, glyph: Option<string>)

  /** A structured payload value as the proxy sees it: its `type` member, the
      `id` and `displayMetadata` members that a channel object carries, and
      every other member left opaque. Contexts and channels are both of this shape. */
  datatype Value = Value(kind: string, id: Option<string>, displayMetadata: Option<DisplayMetadata>, members: map<string, string>)

  type Context = Value

  /** The three channel kinds: `"user" | "app" | "private"`. */
  datatype ChannelType = User | App | Private

  function ChannelTypeName(t: ChannelType): string {
    match t
    case User => "user"
    case App => "app"
    case Private => "private"
  }

  /** Recognises a channel `type` string. */
  function ParseChannelType(s: string): (r: Option<ChannelType>)
    ensures r.Some? <==> s in {"user", "app", "private"}
    ensures r.Some? ==> ChannelTypeName(r.value) == s
  {
    if s == "user" then Some(User)
    else if s == "app" then Some(App)
    else if s == "private" then Some(Private)
    else None
  }

  lemma ChannelTypeRoundTrip(t: ChannelType)
    ensures ParseChannelType(ChannelTypeName(t)) == Some(t)
  {
  }

  /** The channel part of an intent result: `{type, id, displayMetadata}`. */
  datatype ChannelDescription = ChannelDescription(channelType: ChannelType, id: Option<string>, displayMetadata: Option<DisplayMetadata>)

  /** `payload.intentResult` of an `intentResultRequest`: `{}`, `{channel}` or `{context}`. */
  datatype IntentResultPayload = EmptyResult | ChannelResult(channel: ChannelDescription) | ContextResult(context: Context)

  datatype RequestMeta = RequestMeta(requestUuid: string, timestamp: Timestamp)

  datatype ResponseMeta = ResponseMeta(responseUuid: string, requestUuid: string, timestamp: Timestamp)

  /** The messages the proxy sends to the desktop agent. */
  datatype Message =
    | RaiseIntentResponse(responseMeta: ResponseMeta, intent: string, source: AppIdentifier)
    | IntentResultRequest(meta: RequestMeta, intentResult: IntentResultPayload, intentEventUuid: string, raiseIntentRequestUuid: string)
    | BroadcastRequest(meta: RequestMeta, channelId: string, context: Context)
    | GetCurrentContextRequest(meta: RequestMeta, channelId: string, contextType: Option<string>)
  {
    /** The `type` discriminator the message carries on the wire. */
    function TypeName(): string {
      match this
      case RaiseIntentResponse(_, _, _) => "raiseIntentResponse"
      case IntentResultRequest(_, _, _, _) => "intentResultRequest"
      case BroadcastRequest(_, _, _) => "broadcastRequest"
      case GetCurrentContextRequest(_, _, _) => "getCurrentContextRequest"
    }

    /** The `meta.requestUuid` by which the agent correlates this message. */
    function CorrelationUuid(): string {
      match this
      case RaiseIntentResponse(m, _, _) => m.requestUuid
      case IntentResultRequest(m, _, _, _) => m.requestUuid
      case BroadcastRequest(m, _, _) => m.requestUuid
      case GetCurrentContextRequest(m, _, _) => m.requestUuid
    }
  }

  /** One entry of the outbound log: a fire-and-forget post, or a request sent
      by `exchange` together with the response type it waits for. */
  datatype Outbound = Posted(message: Message) | Exchanged(request: Message, expectedResponseType: string)

  /** Why an awaited exchange or registration was rejected. */
  datatype ExchangeError = ExchangeError(reason: string)

  /** The messaging layer, seen only through what is sent on it. The answer to an
      exchange is not produced here: the operation that awaits it receives it as
      a parameter. */
  class Messaging {
    const appIdentifier: AppIdentifier
    var sent: seq<Outbound>

    constructor(appIdentifier: AppIdentifier)
      ensures this.appIdentifier == appIdentifier && sent == []
    {
      this.appIdentifier := appIdentifier;
      sent := [];
    }

    method Post(m: Message)
      modifies this
      ensures sent == old(sent) + [Posted(m)]
    {
      sent := sent + [Posted(m)];
    }

    method Exchange(m: Message, expectedResponseType: string)
      modifies this
      ensures sent == old(sent) + [Exchanged(m, expectedResponseType)]
    {
      sent := sent + [Exchanged(m, expectedResponseType)];
    }
  }
}
