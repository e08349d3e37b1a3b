/** `DefaultIntentListener`: the proxy side of an intent listener. It accepts
    the agent's `intentEvent`s for its intent, acknowledges each with a
    `raiseIntentResponse`, runs the app's handler and relays the handler's
    result in an `intentResultRequest`. Both replies are correlated to the
    event's `eventUuid`, which the agent assigned. */
module IntentListener {
  import opened Wrappers
  import opened Messages

  const INTENT_EVENT := "intentEvent"
  const RAISE_INTENT_RESPONSE := "raiseIntentResponse"
  const INTENT_RESULT_REQUEST := "intentResultRequest"
  const INTENT_RESULT_RESPONSE := "intentResultResponse"

  /** The criteria and message types a listener registers with. */
  datatype ListenerRegistration = ListenerRegistration(
    intentCriterion: string,
    subscribeRequestType: string,
    subscribeResponseType: string,
    unsubscribeRequestType: string,
    unsubscribeResponseType: string)

  datatype EventMeta = EventMeta(eventUuid: string, timestamp: Timestamp)

  /** An inbound event offered to the listener: its `type`, its meta and its payload. */
  datatype IntentEvent = IntentEvent(
    msgType: string,
    meta: EventMeta,
    intent: string,
    context: Context,
    originatingApp: Option<AppIdentifier>,
    raiseIntentRequestUuid: string)

  /** `convertIntentResult`: classifies what the handler produced. No value (the
      handler's `void`, `undefined` or `null`) is the empty result; a value whose
      `type` is a channel type is relayed as that channel; anything else is
      relayed as a context, unchanged. */
  function ConvertIntentResult(ir: Option<Value>): (r: IntentResultPayload)
    ensures r.EmptyResult? <==> ir.None?
    ensures r.ChannelResult? <==> ir.Some? && ir.value.kind in {"user", "app", "private"}
    ensures r.ChannelResult? ==>
              ChannelTypeName(r.channel.channelType) == ir.value.kind &&
              r.channel.id == ir.value.id &&
              r.channel.displayMetadata == ir.value.displayMetadata
    ensures r.ContextResult? ==> r.context == ir.value
  {
    match ir
    case None => EmptyResult
    case Some(v) =>
      match ParseChannelType(v.kind)
      case Some(t) => ChannelResult(ChannelDescription(t, v.id, v.displayMetadata))
      case None => ContextResult(v)
  }

  /** A channel returned as an intent result reaches the agent as that channel:
      its type, id and display metadata survive, and its other members are dropped. */
  lemma ChannelResultRoundTrip(t: ChannelType, id: string, dm: Option<DisplayMetadata>, members: map<string, string>)
    ensures ConvertIntentResult(Some(Value(ChannelTypeName(t), Some(id), dm, members)))
              == ChannelResult(ChannelDescription(t, Some(id), dm))
  {
    ChannelTypeRoundTrip(t);
  }

  /** The acknowledgement posted before the handler runs (`handleIntentResponse`). */
  function RaiseIntentResponseFor(m: IntentEvent, responseUuid: string, now: Timestamp, source: AppIdentifier): (r: Message)
    ensures r.TypeName() == RAISE_INTENT_RESPONSE
    ensures r.CorrelationUuid() == m.meta.eventUuid
    ensures r.RaiseIntentResponse? && r.intent == m.intent && r.source == source
    ensures r.responseMeta.responseUuid == responseUuid && r.responseMeta.timestamp == now
  {
    RaiseIntentResponse(ResponseMeta(responseUuid, m.meta.eventUuid, now), m.intent, source)
  }

  /** The result message (`intentResultRequestMessage`). */
  function IntentResultRequestFor(ir: Option<Value>, m: IntentEvent, now: Timestamp): (r: Message)
    ensures r.TypeName() == INTENT_RESULT_REQUEST
    ensures r.CorrelationUuid() == m.meta.eventUuid
    ensures r.IntentResultRequest? && r.intentEventUuid == m.meta.eventUuid
    ensures r.raiseIntentRequestUuid == m.raiseIntentRequestUuid
    ensures r.intentResult == ConvertIntentResult(ir) && r.meta.timestamp == now
  {
    IntentResultRequest(RequestMeta(m.meta.eventUuid, now), ConvertIntentResult(ir), m.meta.eventUuid, m.raiseIntentRequestUuid)
  }

  /** Both replies an event provokes carry the event's own `eventUuid` as their
      correlation id, whatever the handler produced. */
  lemma RepliesCorrelateToEvent(m: IntentEvent, responseUuid: string, now: Timestamp, source: AppIdentifier, ir: Option<Value>)
    ensures RaiseIntentResponseFor(m, responseUuid, now, source).CorrelationUuid()
              == IntentResultRequestFor(ir, m, now).CorrelationUuid()
              == m.meta.eventUuid
  {
  }

  /** What the app's handler returned: nothing (`void`, `undefined`, `null`) or a promise. */
  datatype HandlerReturn = ReturnedNothing | ReturnedPromise

  /** How the call to the app's handler ended: it returned, or it threw. */
  datatype HandlerOutcome = Returned(value: HandlerReturn) | Threw

  /** The arguments the handler was called with: the event's context and `{source}`. */
  datatype HandlerCall = HandlerCall(context: Context, source: Option<AppIdentifier>)

  class DefaultIntentListener {
    const messaging: Messaging
    const intent: string
    const handler: HandlerRef
    /** What the listener passes to its registration base. */
    const registration: ListenerRegistration
    /** Calls made to the handler, in order. */
    var handlerCalls: seq<HandlerCall>
    /** Events whose handler returned a promise that has not settled yet. */
    var awaiting: seq<IntentEvent>

    constructor(messaging: Messaging, intent: string, handler: HandlerRef)
      ensures this.messaging == messaging && this.intent == intent && this.handler == handler
      ensures registration.intentCriterion == intent
      ensures registration.subscribeRequestType == "addIntentListenerRequest"
      ensures registration.subscribeResponseType == "addIntentListenerResponse"
      ensures registration.unsubscribeRequestType == "intentListenerUnsubscribeRequest"
      ensures registration.unsubscribeResponseType == "intentListenerUnsubscribeResponse"
      ensures handlerCalls == [] && awaiting == []
    {
      this.messaging := messaging;
      this.intent := intent;
      this.handler := handler;
      registration := ListenerRegistration(intent, "addIntentListenerRequest", "addIntentListenerResponse",
                                           "intentListenerUnsubscribeRequest", "intentListenerUnsubscribeResponse");
      handlerCalls := [];
      awaiting := [];
    }

    /** `filter`: the listener takes intent events for its own intent. */
    predicate Filter(m: IntentEvent) {
      m.msgType == INTENT_EVENT && m.intent == intent
    }

    /** An event this listener takes is acknowledged with the listener's own
        intent, and the acknowledgement is correlated to that event. */
    lemma TakenEventAcknowledgedWithOwnIntent(m: IntentEvent, responseUuid: string, now: Timestamp, source: AppIdentifier)
      requires Filter(m)
      ensures RaiseIntentResponseFor(m, responseUuid, now, source).intent == intent
      ensures RaiseIntentResponseFor(m, responseUuid, now, source).CorrelationUuid() == m.meta.eventUuid
    {
    }

    /** `action`: acknowledge the event, call the handler, then relay its result.
        `responseUuid` comes from the messaging layer's id generator; `ackTime`
        and `resultTime` are the clock read for the acknowledgement and for the
        result request. `handlerSent` is what the handler itself sent while it
        ran, and `outcome` how it ended. `escaped` holds when the handler's
        exception propagates out of `action`. */
    method Action(m: IntentEvent, responseUuid: string, ackTime: Timestamp, resultTime: Timestamp,
                  handlerSent: seq<Outbound>, outcome: HandlerOutcome) returns (escaped: bool)
      modifies messaging, this`handlerCalls, this`awaiting
      ensures handlerCalls == old(handlerCalls) + [HandlerCall(m.context, m.originatingApp)]
      ensures escaped <==> outcome.Threw?
      ensures outcome == Returned(ReturnedNothing) ==>
                messaging.sent == old(messaging.sent)
                  + [Posted(RaiseIntentResponseFor(m, responseUuid, ackTime, messaging.appIdentifier))]
                  + handlerSent
                  + [Exchanged(IntentResultRequestFor(None, m, resultTime), INTENT_RESULT_RESPONSE)]
                && awaiting == old(awaiting)
      ensures outcome == Returned(ReturnedPromise) ==>
                messaging.sent == old(messaging.sent)
                  + [Posted(RaiseIntentResponseFor(m, responseUuid, ackTime, messaging.appIdentifier))]
                  + handlerSent
                && awaiting == old(awaiting) + [m]
      ensures outcome.Threw? ==>
                messaging.sent == old(messaging.sent)
                  + [Posted(RaiseIntentResponseFor(m, responseUuid, ackTime, messaging.appIdentifier))]
                  + handlerSent
                && awaiting == old(awaiting)
    {
      HandleIntentResponse(m, responseUuid, ackTime);
      handlerCalls := handlerCalls + [HandlerCall(m.context, m.originatingApp)];
      messaging.sent := messaging.sent + handlerSent;
      match outcome {
        case Threw =>
          escaped := true;
        case Returned(done) =>
          escaped := false;
          HandleIntentResult(done, m, resultTime);
      }
    }

    /** `handleIntentResponse`: post the `raiseIntentResponse` for the event. */
    method HandleIntentResponse(m: IntentEvent, responseUuid: string, now: Timestamp)
      modifies messaging
      ensures messaging.sent == old(messaging.sent) + [Posted(RaiseIntentResponseFor(m, responseUuid, now, messaging.appIdentifier))]
    {
      var out := RaiseIntentResponse(ResponseMeta(responseUuid, m.meta.eventUuid, now), m.intent, messaging.appIdentifier);
      messaging.Post(out);
    }

    /** `handleIntentResult`: with no promise, exchange an empty result now;
        with a promise, wait for it to settle. */
    method HandleIntentResult(returned: HandlerReturn, m: IntentEvent, now: Timestamp)
      modifies messaging, this`awaiting
      ensures returned.ReturnedNothing? ==>
                messaging.sent == old(messaging.sent) + [Exchanged(IntentResultRequestFor(None, m, now), INTENT_RESULT_RESPONSE)]
                && awaiting == old(awaiting)
      ensures returned.ReturnedPromise? ==> messaging.sent == old(messaging.sent) && awaiting == old(awaiting) + [m]
    {
      if returned.ReturnedNothing? {
        messaging.Exchange(IntentResultRequestFor(None, m, now), INTENT_RESULT_RESPONSE);
      } else {
        awaiting := awaiting + [m];
      }
    }

    /** The handler's promise for `awaiting[i]` resolved with `ir`: exchange the
        result request carrying the converted value. */
    method ResultResolved(i: nat, ir: Option<Value>, now: Timestamp)
      requires i < |awaiting|
      modifies messaging, this`awaiting
      ensures messaging.sent == old(messaging.sent) + [Exchanged(IntentResultRequestFor(ir, old(awaiting)[i], now), INTENT_RESULT_RESPONSE)]
      ensures awaiting == old(awaiting)[..i] + old(awaiting)[i + 1..]
    {
      var m := awaiting[i];
      awaiting := awaiting[..i] + awaiting[i + 1..];
      messaging.Exchange(IntentResultRequestFor(ir, m, now), INTENT_RESULT_RESPONSE);
    }

    /** The handler's promise for `awaiting[i]` rejected: no result is sent. */
    method ResultRejected(i: nat)
      requires i < |awaiting|
      modifies this`awaiting
      ensures awaiting == old(awaiting)[..i] + old(awaiting)[i + 1..]
    {
      awaiting := awaiting[..i] + awaiting[i + 1..];
    }
  }

  /** Listeners for different intents never take the same event, and every
      intent event is taken by each listener for its intent. */
  lemma ListenersPartitionIntentEvents(a: DefaultIntentListener, b: DefaultIntentListener, m: IntentEvent)
    ensures a.intent != b.intent ==> !(a.Filter(m) && b.Filter(m))
    ensures m.msgType == INTENT_EVENT && m.intent == a.intent ==> a.Filter(m)
  {
  }
}
