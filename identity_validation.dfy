/** The identity-validation step of the FDC3 Web Connection Protocol: the app
    posts `WCP4ValidateAppIdentity` on the message port it was handed and then
    waits, with one listener and one timer, for the `WCP5` success or failed
    response that carries its own `connectionAttemptUuid`. */
module IdentityValidation {
  import opened Wrappers
  import opened Messages

  /** Milliseconds allowed for the desktop agent to answer the validation request. */
  const ID_VALIDATION_TIMEOUT: nat := 3000

  const WCP4_VALIDATE_APP_IDENTITY := "WCP4ValidateAppIdentity"

  /** What session storage remembers about an earlier connection from an identity URL. */
  datatype PersistedDetails = PersistedDetails(instanceId: string, instanceUuid: string)

  /** The `WCP4ValidateAppIdentity` message, flattened: its type, its meta and its payload. */
  datatype ValidateAppIdentityRequest = ValidateAppIdentityRequest(
    msgType: string,
    connectionAttemptUuid: string,
    timestamp: Timestamp,
    identityUrl: string,
    actualUrl: string,
    instanceId: Option<string>,
    instanceUuid: Option<string>)

  /** Builds the validation request. `identityUrlOption` is the caller's
      `options.identityUrl`, `actualUrl` the page's own URL, and `persisted` the
      session-storage lookup, keyed by identity URL. */
  function ValidationRequest(attemptUuid: string, identityUrlOption: Option<string>, actualUrl: string,
                             now: Timestamp, persisted: map<string, PersistedDetails>): (r: ValidateAppIdentityRequest)
    ensures r.msgType == WCP4_VALIDATE_APP_IDENTITY
    ensures r.connectionAttemptUuid == attemptUuid && r.timestamp == now
    ensures identityUrlOption.Some? ==> r.identityUrl == identityUrlOption.value
    ensures identityUrlOption.None? ==> r.identityUrl == actualUrl
    ensures r.actualUrl == actualUrl
    ensures r.instanceId.Some? <==> r.identityUrl in persisted
    ensures r.instanceUuid.Some? <==> r.identityUrl in persisted
    ensures r.identityUrl in persisted ==>
              r.instanceId == Some(persisted[r.identityUrl].instanceId) &&
              r.instanceUuid == Some(persisted[r.identityUrl].instanceUuid)
  {
    var identityUrl := identityUrlOption.GetOr(actualUrl);
    var request := ValidateAppIdentityRequest(WCP4_VALIDATE_APP_IDENTITY, attemptUuid, now, identityUrl, actualUrl, None, None);
    if identityUrl in persisted then
      request.(instanceId := Some(persisted[identityUrl].instanceId),
               instanceUuid := Some(persisted[identityUrl].instanceUuid))
    else
      request
  }

  /** How the schema's type guards classify an inbound message. */
  datatype ValidationReply =
    | SuccessResponse(appId: string, instanceId: string, instanceUuid: string)
    | FailedResponse(reason: Option<string>)
    | Unrecognised

  /** An inbound message on the port: its `meta.connectionAttemptUuid` (absent
      when the message has no meta) and its classification. */
  datatype InboundMessage = InboundMessage(connectionAttemptUuid: Option<string>, reply: ValidationReply)

  datatype AgentError = AccessDenied | ErrorOnConnect

  /** The state of the promise returned by `listenForIDValidationResponses`. */
  datatype Outcome = Pending | Connected(response: InboundMessage) | Denied | TimedOut

  /** How the promise settled, if it has: resolved with the success message, or
      rejected with the agent error. */
  function Settlement(o: Outcome): (r: Option<Result<InboundMessage, AgentError>>)
    ensures r.None? <==> o.Pending?
    ensures r == Some(Failure(AccessDenied)) <==> o.Denied?
    ensures r == Some(Failure(ErrorOnConnect)) <==> o.TimedOut?
    ensures o.Connected? ==> r == Some(Success(o.response))
  {
    match o
    case Pending => None
    case Connected(m) => Some(Success(m))
    case Denied => Some(Failure(AccessDenied))
    case TimedOut => Some(Failure(ErrorOnConnect))
  }

  /** A promise settles once: later calls to resolve or reject are ignored. */
  function Settle(current: Outcome, next: Outcome): Outcome {
    if current.Pending? then next else current
  }

  /** The handler's observable state: whether `idValidationResponseListener` has
      been assigned, whether that listener is registered on the port, whether
      the timer is running, and the promise's outcome. */
  datatype ValidationState = ValidationState(listenerAssigned: bool, listenerActive: bool, timerActive: bool, outcome: Outcome)

  const Initial := ValidationState(false, false, false, Pending)

  /** The states the handler can be in: nothing before listening starts; while
      the outcome is pending, the listener and the timer are both live; once it
      is settled, neither is. */
  predicate Valid(s: ValidationState) {
    (!s.listenerAssigned ==> s == Initial) &&
    (s.listenerAssigned && s.outcome.Pending? ==> s.listenerActive && s.timerActive) &&
    (!s.outcome.Pending? ==> !s.listenerActive && !s.timerActive)
  }

  /** `removeEventListener` guarded by `if (this.idValidationResponseListener)`. */
  function RemoveListener(s: ValidationState): ValidationState {
    if s.listenerAssigned then s.(listenerActive := false) else s
  }

  /** `listenForIDValidationResponses`: start the timer, assign the listener and add it to the port. */
  function StartListening(s: ValidationState): (t: ValidationState)
    requires Valid(s) && !s.listenerAssigned
    ensures Valid(t) && t.listenerAssigned
    ensures t.listenerActive && t.timerActive && t.outcome.Pending?
  {
    s.(timerActive := true, listenerAssigned := true, listenerActive := true)
  }

  /** The port delivers a message to the handler's listener. */
  function OnMessageStep(s: ValidationState, attemptUuid: string, m: InboundMessage): (t: ValidationState)
    requires Valid(s)
    ensures Valid(t)
    ensures !s.listenerActive ==> t == s
    ensures m.connectionAttemptUuid != Some(attemptUuid) ==> t == s
    ensures m.reply.Unrecognised? ==> t == s
    ensures s.listenerActive && m.connectionAttemptUuid == Some(attemptUuid) && m.reply.SuccessResponse? ==>
              t == ValidationState(true, false, false, Connected(m))
    ensures s.listenerActive && m.connectionAttemptUuid == Some(attemptUuid) && m.reply.FailedResponse? ==>
              t == ValidationState(true, false, false, Denied)
  {
    if !s.listenerActive then s  // the port does not call a removed listener
    else if m.connectionAttemptUuid == Some(attemptUuid) then
      match m.reply
      case SuccessResponse(_, _, _) =>
        RemoveListener(s.(timerActive := false)).(outcome := Settle(s.outcome, Connected(m)))
      case FailedResponse(_) =>
        RemoveListener(s.(timerActive := false)).(outcome := Settle(s.outcome, Denied))
      case Unrecognised => s
    else s
  }

  /** The timer fires after `ID_VALIDATION_TIMEOUT` milliseconds. */
  function OnTimeoutStep(s: ValidationState): (t: ValidationState)
    requires Valid(s)
    ensures Valid(t)
    ensures !s.timerActive ==> t == s
    ensures s.timerActive ==> t == ValidationState(true, false, false, TimedOut)
  {
    if !s.timerActive then s  // a cleared timer never fires
    else RemoveListener(s.(timerActive := false)).(outcome := Settle(s.outcome, TimedOut))
  }

  /** What can happen on the port once listening has started. */
  datatype PortEvent = Deliver(message: InboundMessage) | TimerFires

  function Step(s: ValidationState, attemptUuid: string, e: PortEvent): (t: ValidationState)
    requires Valid(s)
    ensures Valid(t)
  {
    match e
    case Deliver(m) => OnMessageStep(s, attemptUuid, m)
    case TimerFires => OnTimeoutStep(s)
  }

  /** The state after a sequence of port events. */
  function Run(s: ValidationState, attemptUuid: string, events: seq<PortEvent>): (t: ValidationState)
    requires Valid(s)
    ensures Valid(t)
    ensures t.listenerAssigned == s.listenerAssigned
    decreases |events|
  {
    if events == [] then s else Run(Step(s, attemptUuid, events[0]), attemptUuid, events[1..])
  }

  /** A message for attempt `attemptUuid` that validation succeeded. */
  predicate IsOwnSuccess(e: PortEvent, attemptUuid: string) {
    e.Deliver? && e.message.connectionAttemptUuid == Some(attemptUuid) && e.message.reply.SuccessResponse?
  }

  /** A message for attempt `attemptUuid` that validation failed. */
  predicate IsOwnFailure(e: PortEvent, attemptUuid: string) {
    e.Deliver? && e.message.connectionAttemptUuid == Some(attemptUuid) && e.message.reply.FailedResponse?
  }

  /** An event that settles a listening attempt: its own success or failure, or the timer. */
  predicate IsDecisive(e: PortEvent, attemptUuid: string) {
    IsOwnSuccess(e, attemptUuid) || IsOwnFailure(e, attemptUuid) || e == TimerFires
  }

  /** A state with neither listener nor timer reacts to nothing. */
  lemma {:induction false} InertStaysPut(s: ValidationState, attemptUuid: string, events: seq<PortEvent>)
    requires Valid(s) && !s.listenerActive && !s.timerActive
    ensures Run(s, attemptUuid, events) == s
    decreases |events|
  {
    if events != [] {
      InertStaysPut(Step(s, attemptUuid, events[0]), attemptUuid, events[1..]);
    }
  }

  /** Once settled, the attempt is inert: later messages (even for the same
      attempt) and timer events change nothing, so the outcome never changes. */
  lemma {:induction false} SettledIsFinal(s: ValidationState, attemptUuid: string, events: seq<PortEvent>)
    requires Valid(s) && !s.outcome.Pending?
    ensures Run(s, attemptUuid, events) == s
  {
    InertStaysPut(s, attemptUuid, events);
  }

  /** Traffic for other attempts sharing the port (and anything without a
      connection attempt id) is ignored: nothing settles and the listener and
      timer stay as they were. */
  lemma {:induction false} ForeignTrafficIgnored(s: ValidationState, attemptUuid: string, events: seq<PortEvent>)
    requires Valid(s)
    requires forall i :: 0 <= i < |events| ==>
               events[i].Deliver? && events[i].message.connectionAttemptUuid != Some(attemptUuid)
    ensures Run(s, attemptUuid, events) == s
    decreases |events|
  {
    if events != [] {
      ForeignTrafficIgnored(s, attemptUuid, events[1..]);
    }
  }

  /** If a listening, pending attempt settles, it does so at its first
      decisive event (own success, own failure or timer), and with that
      event's outcome. */
  lemma {:induction false} SettlesAtFirstDecisiveEvent(s: ValidationState, attemptUuid: string, events: seq<PortEvent>)
    requires Valid(s) && s.listenerAssigned && s.outcome.Pending?
    requires !Run(s, attemptUuid, events).outcome.Pending?
    ensures exists k :: 0 <= k < |events| && IsDecisive(events[k], attemptUuid) &&
              Run(s, attemptUuid, events) == Step(s, attemptUuid, events[k]) &&
              forall i :: 0 <= i < k ==> !IsDecisive(events[i], attemptUuid)
    decreases |events|
  {
    var s' := Step(s, attemptUuid, events[0]);
    if s'.outcome.Pending? {
      assert s' == s;
      SettlesAtFirstDecisiveEvent(s', attemptUuid, events[1..]);
      var k :| 0 <= k < |events[1..]| && IsDecisive(events[1..][k], attemptUuid) &&
                Run(s', attemptUuid, events[1..]) == Step(s', attemptUuid, events[1..][k]) &&
                forall i :: 0 <= i < k ==> !IsDecisive(events[1..][i], attemptUuid);
      assert events[k + 1] == events[1..][k];
      forall i | 0 <= i < k + 1
        ensures !IsDecisive(events[i], attemptUuid)
      {
        if i > 0 { assert events[i] == events[1..][i - 1]; }
      }
    } else {
      SettledIsFinal(s', attemptUuid, events[1..]);
    }
  }

  /** Conversely, the first decisive event does settle a listening, pending
      attempt, with that event's outcome, whatever follows it. */
  lemma {:induction false} FirstDecisiveEventSettles(s: ValidationState, attemptUuid: string, events: seq<PortEvent>, k: nat)
    requires Valid(s) && s.listenerAssigned && s.outcome.Pending?
    requires k < |events| && IsDecisive(events[k], attemptUuid)
    requires forall i :: 0 <= i < k ==> !IsDecisive(events[i], attemptUuid)
    ensures Run(s, attemptUuid, events) == Step(s, attemptUuid, events[k])
    ensures !Run(s, attemptUuid, events).outcome.Pending?
    decreases k
  {
    if k == 0 {
      SettledIsFinal(Step(s, attemptUuid, events[0]), attemptUuid, events[1..]);
    } else {
      assert !IsDecisive(events[0], attemptUuid);
      assert Step(s, attemptUuid, events[0]) == s;
      forall i | 0 <= i < k - 1
        ensures !IsDecisive(events[1..][i], attemptUuid)
      {
        assert events[1..][i] == events[i + 1];
      }
      assert events[1..][k - 1] == events[k];
      FirstDecisiveEventSettles(s, attemptUuid, events[1..], k - 1);
    }
  }

  /** A listening attempt settles exactly when some own success, own failure
      or timer event reaches it. */
  lemma SettlesIffDecisiveEvent(s: ValidationState, attemptUuid: string, events: seq<PortEvent>)
    requires Valid(s) && s.listenerAssigned && s.outcome.Pending?
    ensures !Run(s, attemptUuid, events).outcome.Pending? <==>
              exists k :: 0 <= k < |events| && IsDecisive(events[k], attemptUuid)
  {
    if k :| 0 <= k < |events| && IsDecisive(events[k], attemptUuid) {
      var first := FirstDecisiveIndex(events, attemptUuid, k);
      FirstDecisiveEventSettles(s, attemptUuid, events, first);
    }
    if !Run(s, attemptUuid, events).outcome.Pending? {
      SettlesAtFirstDecisiveEvent(s, attemptUuid, events);
    }
  }

  /** The index of the first decisive event, given that `k` is one. */
  lemma {:induction false} FirstDecisiveIndex(events: seq<PortEvent>, attemptUuid: string, k: nat) returns (first: nat)
    requires k < |events| && IsDecisive(events[k], attemptUuid)
    ensures first <= k && IsDecisive(events[first], attemptUuid)
    ensures forall i :: 0 <= i < first ==> !IsDecisive(events[i], attemptUuid)
    decreases k
  {
    if exists j :: 0 <= j < k && IsDecisive(events[j], attemptUuid) {
      var j :| 0 <= j < k && IsDecisive(events[j], attemptUuid);
      first := FirstDecisiveIndex(events, attemptUuid, j);
    } else {
      first := k;
    }
  }

  /** The attempt connects only by a success response carrying its own id that
      arrives before the timer fires and before any other success or failure of
      its own; it resolves with that very message. */
  lemma {:induction false} ConnectedOnlyByOwnSuccess(s: ValidationState, attemptUuid: string, events: seq<PortEvent>)
    requires Valid(s) && s.outcome.Pending?
    requires Run(s, attemptUuid, events).outcome.Connected?
    ensures IsOwnSuccess(Deliver(Run(s, attemptUuid, events).outcome.response), attemptUuid)
    ensures exists k :: 0 <= k < |events| && events[k] == Deliver(Run(s, attemptUuid, events).outcome.response) &&
              forall i :: 0 <= i < k ==> !IsDecisive(events[i], attemptUuid)
  {
    if !s.listenerAssigned {
      InertStaysPut(s, attemptUuid, events);
      assert false;
    }
    SettlesAtFirstDecisiveEvent(s, attemptUuid, events);
  }

  /** The attempt is denied only by a failure response carrying its own id that
      arrives before the timer fires and before any other success or failure of
      its own. */
  lemma {:induction false} DeniedOnlyByOwnFailure(s: ValidationState, attemptUuid: string, events: seq<PortEvent>)
    requires Valid(s) && s.outcome.Pending?
    requires Run(s, attemptUuid, events).outcome.Denied?
    ensures exists k :: 0 <= k < |events| && IsOwnFailure(events[k], attemptUuid) &&
              forall i :: 0 <= i < k ==> !IsDecisive(events[i], attemptUuid)
  {
    if !s.listenerAssigned {
      InertStaysPut(s, attemptUuid, events);
      assert false;
    }
    SettlesAtFirstDecisiveEvent(s, attemptUuid, events);
  }

  /** The attempt times out only when its timer fires before any success or
      failure of its own arrives. */
  lemma {:induction false} TimedOutOnlyByTimer(s: ValidationState, attemptUuid: string, events: seq<PortEvent>)
    requires Valid(s) && s.outcome.Pending?
    requires Run(s, attemptUuid, events).outcome.TimedOut?
    ensures exists k :: 0 <= k < |events| && events[k] == TimerFires &&
              forall i :: 0 <= i < k ==> !IsDecisive(events[i], attemptUuid)
  {
    if !s.listenerAssigned {
      InertStaysPut(s, attemptUuid, events);
      assert false;
    }
    SettlesAtFirstDecisiveEvent(s, attemptUuid, events);
  }

  /** Whatever happens after listening starts, the attempt is in exactly one of
      two situations: still pending with its listener and timer live, or settled
      (connected, denied or timed out) with no listener left on the port and no
      timer running. */
  lemma {:induction false} NoLeakedListener(attemptUuid: string, events: seq<PortEvent>)
    ensures var t := Run(StartListening(Initial), attemptUuid, events);
            (t.outcome.Pending? && t.listenerActive && t.timerActive) ||
            (!t.outcome.Pending? && !t.listenerActive && !t.timerActive)
  {
    var t := Run(StartListening(Initial), attemptUuid, events);
    assert Valid(t) && t.listenerAssigned;
  }

  /** Two attempts `a` and `b` listening on one port: a success tagged `b`
      connects `b` and leaves `a` exactly as it was. */
  lemma SharedPortIsolation(a: string, b: string, m: InboundMessage)
    requires a != b
    requires m.connectionAttemptUuid == Some(b) && m.reply.SuccessResponse?
    ensures var sa := StartListening(Initial);
            OnMessageStep(sa, a, m) == sa && OnMessageStep(sa, b, m).outcome == Connected(m)
  {
  }

  /** `IdentityValidationHandler`: one connection attempt on one message port. */
  class IdentityValidationHandler {
    /** Id that tags every message of this attempt. */
    const connectionAttemptUuid: string
    /** `options.identityUrl` as given to `getAgent`. */
    const identityUrlOption: Option<string>
    /** Validation requests posted on the port. */
    var posted: seq<ValidateAppIdentityRequest>
    /** `idValidationResponseListener != null`. */
    var listenerAssigned: bool
    /** The listener is registered on the port. */
    var listenerActive: bool
    /** The timeout is scheduled and not cleared. */
    var timerActive: bool
    /** Delay of the scheduled timeout, in milliseconds. */
    var timerDelay: nat
    var outcome: Outcome

    function State(): ValidationState
      reads this
    {
      ValidationState(listenerAssigned, listenerActive, timerActive, outcome)
    }

    /** How the promise returned by `listenForIDValidationResponses` has settled. */
    function Promise(): Option<Result<InboundMessage, AgentError>>
      reads this
    {
      Settlement(outcome)
    }

    constructor(identityUrlOption: Option<string>, connectionAttemptUuid: string)
      ensures this.identityUrlOption == identityUrlOption && this.connectionAttemptUuid == connectionAttemptUuid
      ensures State() == Initial && posted == []
    {
      this.identityUrlOption := identityUrlOption;
      this.connectionAttemptUuid := connectionAttemptUuid;
      posted := [];
      listenerAssigned, listenerActive, timerActive, timerDelay := false, false, false, 0;
      outcome := Pending;
    }

    /** `sendIdValidationMessage`: post the `WCP4ValidateAppIdentity` request.
        The page URL, the clock and session storage are parameters. */
    method SendIdValidationMessage(actualUrl: string, now: Timestamp, persisted: map<string, PersistedDetails>)
      modifies this`posted
      ensures posted == old(posted) + [ValidationRequest(connectionAttemptUuid, identityUrlOption, actualUrl, now, persisted)]
    {
      var identityUrl := if identityUrlOption.Some? then identityUrlOption.value else actualUrl;
      var request := ValidateAppIdentityRequest(WCP4_VALIDATE_APP_IDENTITY, connectionAttemptUuid, now, identityUrl, actualUrl, None, None);
      if identityUrl in persisted {
        var details := persisted[identityUrl];
        request := request.(instanceId := Some(details.instanceId), instanceUuid := Some(details.instanceUuid));
      }
      posted := posted + [request];
    }

    /** `listenForIDValidationResponses`: schedule the timeout, then assign the
        listener and add it to the port. */
    method ListenForIdValidationResponses()
      requires Valid(State()) && !listenerAssigned
      modifies this`timerActive, this`timerDelay, this`listenerAssigned, this`listenerActive
      ensures State() == StartListening(old(State()))
      ensures timerDelay == ID_VALIDATION_TIMEOUT
    {
      timerActive, timerDelay := true, ID_VALIDATION_TIMEOUT;
      listenerAssigned := true;
      listenerActive := true;
    }

    /** The listener's body, run when the port delivers a message. */
    method OnMessage(m: InboundMessage)
      requires Valid(State())
      modifies this`timerActive, this`listenerActive, this`outcome
      ensures State() == OnMessageStep(old(State()), connectionAttemptUuid, m)
      ensures old(listenerActive) && m.connectionAttemptUuid == Some(connectionAttemptUuid) && m.reply.SuccessResponse? ==>
                Promise() == Some(Success(m))
      ensures old(listenerActive) && m.connectionAttemptUuid == Some(connectionAttemptUuid) && m.reply.FailedResponse? ==>
                Promise() == Some(Failure(AccessDenied))
    {
      if !listenerActive {
        return;
      }
      if m.connectionAttemptUuid == Some(connectionAttemptUuid) {
        match m.reply {
          case SuccessResponse(_, _, _) =>
            timerActive := false;
            if listenerAssigned {
              listenerActive := false;
            }
            if outcome.Pending? {
              outcome := Connected(m);
            }
          case FailedResponse(_) =>
            timerActive := false;
            if listenerAssigned {
              listenerActive := false;
            }
            if outcome.Pending? {
              outcome := Denied;
            }
          case Unrecognised =>
        }
      }
    }

    /** The timeout callback. */
    method OnTimeout()
      requires Valid(State())
      modifies this`timerActive, this`listenerActive, this`outcome
      ensures State() == OnTimeoutStep(old(State()))
      ensures old(timerActive) ==> Promise() == Some(Failure(ErrorOnConnect))
    {
      if !timerActive {
        return;
      }
      timerActive := false;
      if listenerAssigned {
        listenerActive := false;
      }
      if outcome.Pending? {
        outcome := TimedOut;
      }
    }
  }
}
