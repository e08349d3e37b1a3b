# FDC3 browser proxy: identity validation, intent replies, channel requests

A Dafny model of three pieces of the FDC3 web proxy, the code an app runs to
talk to a desktop agent over a message port:

- **Identity validation** (`IdentityValidationHandler`, steps 4 and 5 of the
  FDC3 Web Connection Protocol). The app posts `WCP4ValidateAppIdentity` with
  its identity URL, its actual URL and any instance id it remembers. It then
  waits, with one port listener and one 3000 ms timer, for a `WCP5` success or
  failure response tagged with its own `connectionAttemptUuid`.
  Module `IdentityValidation` (`identity_validation.dfy`) states this as pure
  transition functions on a `ValidationState`. A class
  `IdentityValidationHandler` holds the handler's own fields (attempt id,
  the identity URL option, the listener field). It also holds, as fields, the state `IdentityValidationHandler.ts`
  keeps in closures and in the promise: whether the listener is on the port,
  whether the timer runs, and the outcome. The port itself is represented only
  by the log of posted requests. The class's methods are proved to perform
  exactly the pure transitions. Lemmas over arbitrary event
  sequences (`Run`) state the protocol's guarantees:
  - the outcome is settled at most once and never changes afterwards;
  - traffic for other attempts is ignored;
  - each outcome has exactly one possible cause;
  - no listener is left on the port once the attempt has settled.
- **Intent listener replies** (`DefaultIntentListener`). Module `IntentListener`
  (`intent_listener.dfy`) covers:
  - the event filter;
  - the `raiseIntentResponse` acknowledgement and the `intentResultRequest`,
    both keyed by the event's `eventUuid`;
  - the classification of a handler's result into `{}`, `{channel}` or
    `{context}`;
  - the order of effects in `action`.
- **Channel requests** (`DefaultChannel`). Module `Channels` (`channel.dfy`)
  covers:
  - the `broadcastRequest` and `getCurrentContextRequest` exchanges;
  - the `?? null` fallback on the response;
  - the normalisation of `addContextListener`'s overloaded arguments;
  - the registration of the resulting listener.

Shared definitions live in `messages.dfy` (module `Messages`): payload values,
outbound messages with their `type` names and correlation ids, and the messaging
layer. `wrappers.dfy` holds `Option` and `Result`.

The messaging layer is modelled as a log of what was sent. A `post` appends
`Posted(m)`. An `exchange` appends `Exchanged(m, expectedResponseType)`. The
awaited answer of an exchange or of a listener registration is a parameter of
the operation that awaits it, as a `Result`, so a rejected exchange propagates
as it does through `await`. Several other inputs are parameters too:

- the page URL;
- the clock (`new Date()`);
- generated UUIDs and request metadata (`createUUID`, `createMeta`);
- the session-storage lookup (a `map` from identity URL to persisted details);
- what an app handler returns.

A port message and a timer expiry are explicit events.

Behaviour worth noting:

- A failed validation rejects with `AccessDenied` only. The agent's reason is
  logged, not carried in the error.
- The promise resolves with the whole `WCP5` success message, not with an
  extracted identity.
- An intent event that arrives twice is answered twice. There is no
  per-`eventUuid` guard.

## Model

| member | source | states |
|---|---|---|
| IdentityValidation.ValidationRequest | packages/fdc3-get-agent/src/strategies/IdentityValidationHandler.ts:42-62 | The request has type `WCP4ValidateAppIdentity` and the attempt's `connectionAttemptUuid`. `identityUrl` is `options.identityUrl` when given, else the actual URL. `actualUrl` is always the actual URL. `instanceId`/`instanceUuid` are present iff session storage holds a record for `identityUrl`, and they are copied from it. |
| IdentityValidation.IdentityValidationHandler.SendIdValidationMessage | packages/fdc3-get-agent/src/strategies/IdentityValidationHandler.ts:42-65 | Posts exactly that request on the port and nothing else. |
| IdentityValidation.IdentityValidationHandler.constructor | packages/fdc3-get-agent/src/strategies/IdentityValidationHandler.ts:17-22 | Stores the options and attempt id. Starts with no listener assigned, no timer and nothing posted. |
| IdentityValidation.StartListening | packages/fdc3-get-agent/src/strategies/IdentityValidationHandler.ts:69-124 | Listening starts with the timer running, the listener assigned and registered, and the outcome pending. |
| IdentityValidation.IdentityValidationHandler.ListenForIdValidationResponses | packages/fdc3-get-agent/src/strategies/IdentityValidationHandler.ts:68-125 | Performs `StartListening` on the handler's fields and schedules the timer with `ID_VALIDATION_TIMEOUT` (3000 ms). |
| IdentityValidation.Settlement | packages/fdc3-get-agent/src/strategies/IdentityValidationHandler.ts:79-106 | The promise resolves with the success message, rejects with `AccessDenied` on denial and with `ErrorOnConnect` on timeout, and stays unsettled while pending. |
| IdentityValidation.OnMessageStep | packages/fdc3-get-agent/src/strategies/IdentityValidationHandler.ts:83-121 | A message with another (or no) attempt id changes nothing. So does a message classified as neither success nor failure. A matching success clears the timer, removes the listener and connects with that message. A matching failure does the same and is denied. The state invariant is kept. |
| IdentityValidation.IdentityValidationHandler.OnMessage | packages/fdc3-get-agent/src/strategies/IdentityValidationHandler.ts:83-121 | The listener body updates the handler's fields exactly as `OnMessageStep` does. While listening, an own success resolves the handler's promise with that message, and an own failure rejects it with `AccessDenied`. |
| IdentityValidation.OnTimeoutStep | packages/fdc3-get-agent/src/strategies/IdentityValidationHandler.ts:71-80 | A live timer firing removes the listener and times the attempt out. A cleared timer changes nothing. |
| IdentityValidation.IdentityValidationHandler.OnTimeout | packages/fdc3-get-agent/src/strategies/IdentityValidationHandler.ts:71-80 | The timeout callback updates the handler's fields exactly as `OnTimeoutStep` does. A live timer rejects the handler's promise with `ErrorOnConnect`. |
| IdentityValidation.Run | packages/fdc3-get-agent/src/strategies/IdentityValidationHandler.ts:68-125 | Any sequence of port messages and timer events keeps the state invariant: pending means listener and timer live, settled means neither. |
| IdentityValidation.SettledIsFinal | packages/fdc3-get-agent/src/strategies/IdentityValidationHandler.ts:86-106 | Once settled, the attempt ignores every later message and timer event, including a second message for the same attempt. Its outcome never changes. |
| IdentityValidation.ForeignTrafficIgnored | packages/fdc3-get-agent/src/strategies/IdentityValidationHandler.ts:85-120 | Any run of messages tagged with other attempt ids leaves the state unchanged. Nothing settles, and the listener and timer stay as they were. |
| IdentityValidation.SettlesAtFirstDecisiveEvent | packages/fdc3-get-agent/src/strategies/IdentityValidationHandler.ts:71-106 | If a listening attempt settles, it does so at its first own success, own failure or timer event, and with that event's outcome. |
| IdentityValidation.FirstDecisiveEventSettles | packages/fdc3-get-agent/src/strategies/IdentityValidationHandler.ts:71-106 | Conversely, the first own success, own failure or timer event settles a listening attempt with its outcome, whatever follows. |
| IdentityValidation.SettlesIffDecisiveEvent | packages/fdc3-get-agent/src/strategies/IdentityValidationHandler.ts:71-106 | A listening attempt ends settled if and only if some own success, own failure or timer event reaches it. |
| IdentityValidation.ConnectedOnlyByOwnSuccess | packages/fdc3-get-agent/src/strategies/IdentityValidationHandler.ts:85-96 | A pending attempt connects only by a success message tagged with its own id. That message arrived before the timer fired and before any other own success or failure, and the attempt resolves with it. |
| IdentityValidation.DeniedOnlyByOwnFailure | packages/fdc3-get-agent/src/strategies/IdentityValidationHandler.ts:98-106 | A pending attempt is denied only by a failure message tagged with its own id that arrived before the timer fired and before any other own success or failure. |
| IdentityValidation.TimedOutOnlyByTimer | packages/fdc3-get-agent/src/strategies/IdentityValidationHandler.ts:71-80 | A pending attempt times out only when its timer fires before any success or failure of its own arrives. |
| IdentityValidation.NoLeakedListener | packages/fdc3-get-agent/src/strategies/IdentityValidationHandler.ts:71-106 | After any events, an attempt is in exactly one of two situations. Either it is pending with listener and timer live, or it is connected, denied or timed out with no listener registered and no timer. |
| IdentityValidation.SharedPortIsolation | packages/fdc3-get-agent/src/strategies/IdentityValidationHandler.ts:85-96 | Two attempts share a port. A success tagged `b` connects attempt `b` and leaves attempt `a` exactly as it was. |
| IntentListener.DefaultIntentListener.Filter | packages/fdc3-agent-proxy/src/listeners/DefaultIntentListener.ts:23-25 | Takes a message iff its type is `intentEvent` and its intent is the listener's own. |
| IntentListener.DefaultIntentListener.TakenEventAcknowledgedWithOwnIntent | packages/fdc3-agent-proxy/src/listeners/DefaultIntentListener.ts:23-35 | An event the listener's `filter` takes is acknowledged with the listener's own intent, correlated to that event's `eventUuid`. |
| IntentListener.ListenersPartitionIntentEvents | packages/fdc3-agent-proxy/src/listeners/DefaultIntentListener.ts:23-25 | Listeners for different intents never both take one event, and an `intentEvent` is taken by every listener for its intent. |
| IntentListener.DefaultIntentListener.constructor | packages/fdc3-agent-proxy/src/listeners/DefaultIntentListener.ts:11-21 | Registers with criteria `{intent}`. The message types are `addIntentListenerRequest`/`Response` and `intentListenerUnsubscribeRequest`/`Response`. |
| IntentListener.ConvertIntentResult | packages/fdc3-agent-proxy/src/listeners/DefaultIntentListener.ts:85-106 | No value gives `{}`. A value whose type is `user`, `app` or `private` gives `{channel}` with the same type, id and display metadata. Any other value gives `{context}` with the value unchanged. |
| Messages.ParseChannelType | packages/fdc3-agent-proxy/src/listeners/DefaultIntentListener.ts:89-92 | Exactly `user`, `app` and `private` are channel types, each recognised as itself. |
| Messages.ChannelTypeRoundTrip | packages/fdc3-agent-proxy/src/listeners/DefaultIntentListener.ts:89-92 | Each channel type's name is recognised as that type. |
| IntentListener.ChannelResultRoundTrip | packages/fdc3-agent-proxy/src/listeners/DefaultIntentListener.ts:89-100 | A channel returned by a handler is relayed with its type, id and display metadata, and its other members are dropped. |
| IntentListener.RaiseIntentResponseFor | packages/fdc3-agent-proxy/src/listeners/DefaultIntentListener.ts:37-53 | The acknowledgement has type `raiseIntentResponse`. Its `requestUuid` is the event's `eventUuid`, its intent is the event's, its source is the app's identifier and its `responseUuid` is the id passed in from `createUUID`. |
| IntentListener.IntentResultRequestFor | packages/fdc3-agent-proxy/src/listeners/DefaultIntentListener.ts:55-70 | The result request has type `intentResultRequest`. `requestUuid` and `intentEventUuid` are both the event's `eventUuid`. `raiseIntentRequestUuid` is copied from the event, and the result is the converted handler value. |
| IntentListener.RepliesCorrelateToEvent | packages/fdc3-agent-proxy/src/listeners/DefaultIntentListener.ts:37-70 | Both replies to one event carry that event's `eventUuid` as correlation id, not a locally generated request id. |
| IntentListener.DefaultIntentListener.Action | packages/fdc3-agent-proxy/src/listeners/DefaultIntentListener.ts:27-35 | Posts the acknowledgement, stamped with the first clock reading. Then whatever the handler sends follows in the log, and the handler is called with the event's context and originating app. If the handler returns nothing, exactly one empty-result request follows, stamped with the second clock reading and expecting `intentResultResponse`. If it returns a promise, nothing more is sent yet and the event waits. If it throws, nothing more is sent, nothing waits and the exception escapes. |
| IntentListener.DefaultIntentListener.HandleIntentResponse | packages/fdc3-agent-proxy/src/listeners/DefaultIntentListener.ts:37-53 | Posts exactly the acknowledgement for the event. |
| IntentListener.DefaultIntentListener.HandleIntentResult | packages/fdc3-agent-proxy/src/listeners/DefaultIntentListener.ts:72-82 | With no promise, exchanges one `{}` result request at once. With a promise, sends nothing and waits for the promise to settle. |
| IntentListener.DefaultIntentListener.ResultResolved | packages/fdc3-agent-proxy/src/listeners/DefaultIntentListener.ts:76-80 | When the handler's promise resolves, exchanges the result request for that event carrying the converted value. The event stops waiting. |
| IntentListener.DefaultIntentListener.ResultRejected | packages/fdc3-agent-proxy/src/listeners/DefaultIntentListener.ts:76-80 | When the handler's promise rejects, nothing is sent. The event stops waiting. |
| Channels.DefaultChannel.constructor | fdc3-for-web-implementation/packages/da-proxy/src/channels/DefaultChannel.ts:13-18 | Stores messaging, id, type and display metadata unchanged. |
| Channels.DefaultChannel.Broadcast | fdc3-for-web-implementation/packages/da-proxy/src/channels/DefaultChannel.ts:20-29 | Exchanges one `broadcastRequest` with payload `{channelId: id, context}`, expecting `broadcastResponse`. It settles as the exchange does. |
| Channels.DefaultChannel.GetCurrentContext | fdc3-for-web-implementation/packages/da-proxy/src/channels/DefaultChannel.ts:31-43 | Exchanges one `getCurrentContextRequest` with `channelId: id` and the given context type, expecting `getCurrentContextResponse`. It answers with the response's context when present, otherwise null, and rejects when the exchange does. |
| Channels.ContextOrNull | fdc3-for-web-implementation/packages/da-proxy/src/channels/DefaultChannel.ts:42 | `context ?? null`: a present context is returned as is, and both `undefined` and `null` become null. |
| Channels.NormaliseListenerArgs | fdc3-for-web-implementation/packages/da-proxy/src/channels/DefaultChannel.ts:49-59 | A null first argument gives `(null, handler)`. A string gives `(string, handler)`. Any other value gives `(null, that value as handler)`. A context type is set iff the first argument is a string. |
| Channels.TwoArgumentFormRoundTrip | fdc3-for-web-implementation/packages/da-proxy/src/channels/DefaultChannel.ts:49-54 | The two-argument form passes its filter (including the empty string) and handler through unchanged. |
| Channels.DeprecatedFormRoundTrip | fdc3-for-web-implementation/packages/da-proxy/src/channels/DefaultChannel.ts:55-59 | The one-argument form listens to every type with its argument as handler, ignoring any second argument. |
| Channels.DefaultChannel.AddContextListener | fdc3-for-web-implementation/packages/da-proxy/src/channels/DefaultChannel.ts:45-62 | Returns a fresh, registered listener for this channel whose context type and handler are the normalised arguments. If registration fails, it rejects with that error. The only messages sent are the registration's. |
| Channels.DefaultChannel.AddContextListenerInner | fdc3-for-web-implementation/packages/da-proxy/src/channels/DefaultChannel.ts:64-68 | The returned listener is fresh, already registered, and bound to this channel's id, the given context type and the handler. A failed registration rejects instead. The only messages sent are the registration's. |
| Channels.ContextListener.constructor | fdc3-for-web-implementation/packages/da-proxy/src/channels/DefaultChannel.ts:65 | A new listener stores channel id, context type and handler, and is not yet registered. |
| Channels.ContextListener.Register | fdc3-for-web-implementation/packages/da-proxy/src/channels/DefaultChannel.ts:66 | Sends the registration's messages on the channel's messaging. The listener counts as registered iff the agent acknowledged, and the call settles as the acknowledgement does. |

## Left out

- The messaging layer (`Messaging`) and the generic listener base (`AbstractListener`) are not part of this model. This covers their UUID and metadata generation, request/response correlation, exchange timeouts, dispatch of inbound events through `filter`, and unsubscribe. An exchange is a log entry, and its answer is a parameter.
- `DefaultContextListener` is not part of this model. Beyond its constructor arguments, it appears only as a flag recording whether its registration was acknowledged.
- Channels.ContextListener.Register: the registration request is built by the listener base class, so what it sends is a parameter and the model does not state its contents.
- Real timers, promises and `MessagePort` dispatch are replaced by explicit events. Promise semantics are modelled where they matter: a promise settles once, a removed listener is not called, and a cleared timer does not fire. The timeout's duration is recorded, not elapsed.
- The schema type guards for `WCP5` success and failure are an abstract classification (`ValidationReply`). A message the guards would accept as both is classified as success, the branch the code tries first.
- Console logging, including the agent's failure reason and the ignored-message diagnostics, is left out.
- IdentityValidation.IdentityValidationHandler.ListenForIdValidationResponses: modelled for the single call the connection flow makes. A second call would add a second listener and timer and overwrite the listener field, which the two-valued state cannot represent.
- IntentListener.DefaultIntentListener.Action: the handler is external code. Its call is recorded, and what it sends, how it ends and its return value are parameters. A handler that returns a non-promise value is not modelled.
- IntentListener.DefaultIntentListener.ResultResolved: the promise returned by the result exchange is not awaited by `handleIntentResult`, so its answer is not modelled.
- The discovery steps of the handshake that come before identity validation are not part of this model. Neither is what the caller does with the connected session afterwards.
