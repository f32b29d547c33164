/**
 * What the abstract category listeners do with the message they are handed:
 * which of their abstract hooks runs, which exception escapes instead, and,
 * for an upstream message, the acknowledgement that is sent back.  The
 * listeners themselves (and their state) are in module Client; this module
 * holds the decisions, as functions of the message.
 */
module Reactions {
  import opened Common
  import opened Json
  import opened Incoming

  /** The three listener slots of the stanza listener. */
  datatype Category = UpstreamCategory | ResponseCategory | ReceiptOrControlCategory

  /**
   * The message a listener is handed, tagged with its class; the inner
   * None is a Java null (the JSON could not be bound to the class).
   */
  datatype Inbound =
    | UpstreamIn(upstream: Option<UpstreamFields>)
    | ResponseIn(response: Option<ResponseFields>)
    | ReceiptOrControlIn(receipt: Option<ReceiptFields>)

  function CategoryOf(m: Inbound): Category
  {
    match m
    case UpstreamIn(_) => UpstreamCategory
    case ResponseIn(_) => ResponseCategory
    case ReceiptOrControlIn(_) => ReceiptOrControlCategory
  }

  /** The listener was handed a null message. */
  predicate IsNull(m: Inbound)
  {
    match m
    case UpstreamIn(u) => u.None?
    case ResponseIn(r) => r.None?
    case ReceiptOrControlIn(c) => c.None?
  }

  /** A call of one of the abstract (subclass-supplied) listener methods. */
  datatype Hook =
    | HandleAckReceipt(response: ResponseFields)
    | HandleServerFailure(response: ResponseFields)
    | HandleUnrecoverableFailure(response: ResponseFields)
    | HandleConnectionDrainingFailure
    | HandleDeliveryReceipt(receipt: ReceiptFields)
    | ProcessUpstreamMessage(upstream: Option<UpstreamFields>)

  /** The hooks a call ran, in order: an absent hook runs nothing. */
  function HookList(h: Option<Hook>): seq<Hook>
  {
    if h.Some? then [h.value] else []
  }

  // ---- downstream message responses ----

  /** The error codes after which resending the message cannot help. */
  const UnrecoverableCodes: set<string> :=
    {InvalidJson, BadRegistration, DeviceUnregistered, BadAck,
     DeviceMessageRateExceeded, TopicsMessageRateExceeded}

  /** The error codes that blame the FCM servers. */
  const ServerFailureCodes: set<string> := {ServiceUnavailable, InternalServerError}

  /**
   * handleNackReceipt: the error-code switch.  A null code and an unknown
   * code are only logged; every known code runs exactly one hook, chosen by
   * the group the code belongs to.
   */
  function NackHook(r: ResponseFields): (h: Option<Hook>)
    ensures h == Some(HandleUnrecoverableFailure(r)) <==>
              r.error.Some? && r.error.value in UnrecoverableCodes
    ensures h == Some(HandleServerFailure(r)) <==>
              r.error.Some? && r.error.value in ServerFailureCodes
    ensures h == Some(HandleConnectionDrainingFailure) <==> r.error == Some(ConnectionDraining)
    ensures h.None? <==> r.error.None? || r.error.value !in ErrorCodes
  {
    match r.error
    case None => None
    case Some(code) =>
      if code == InvalidJson then Some(HandleUnrecoverableFailure(r))
      else if code == BadRegistration then Some(HandleUnrecoverableFailure(r))
      else if code == DeviceUnregistered then Some(HandleUnrecoverableFailure(r))
      else if code == BadAck then Some(HandleUnrecoverableFailure(r))
      else if code == ServiceUnavailable then Some(HandleServerFailure(r))
      else if code == InternalServerError then Some(HandleServerFailure(r))
      else if code == DeviceMessageRateExceeded then Some(HandleUnrecoverableFailure(r))
      else if code == TopicsMessageRateExceeded then Some(HandleUnrecoverableFailure(r))
      else if code == ConnectionDraining then Some(HandleConnectionDrainingFailure)
      else None
  }

  /**
   * onReceiveMessage of the downstream-response listener: a message type of
   * exactly "ack" runs the ack hook, anything else takes the nack path; a
   * null response or a null message type is a NullPointerException.
   */
  function ResponseHook(m: Option<ResponseFields>): (r: Result<Option<Hook>>)
    ensures r.Err? <==> m.None? || m.value.messageType.None?
    ensures r.Err? ==> r.error == NullPointer
    ensures m.Some? && r == Ok(Some(HandleAckReceipt(m.value))) <==>
              m.Some? && m.value.messageType == Some(AckType)
    ensures r.Ok? && m.value.messageType != Some(AckType) ==> r.value == NackHook(m.value)
    ensures r.Ok? && r.value.Some? && !r.value.value.HandleConnectionDrainingFailure? ==>
              r.value.value.HandleAckReceipt? || r.value.value.HandleServerFailure? ||
              r.value.value.HandleUnrecoverableFailure?
  {
    match m
    case None => Err(NullPointer)
    case Some(resp) =>
      match resp.messageType
      case None => Err(NullPointer)
      case Some(t) =>
        if t == AckType then Ok(Some(HandleAckReceipt(resp))) else Ok(NackHook(resp))
  }

  /**
   * A response handed to a listener runs a hook for that same response, or
   * the argument-less draining hook.
   */
  lemma ResponseHookCarriesResponse(m: Option<ResponseFields>)
    requires ResponseHook(m).Ok? && ResponseHook(m).value.Some?
    ensures var h := ResponseHook(m).value.value;
            || h.HandleConnectionDrainingFailure?
            || ((h.HandleAckReceipt? || h.HandleServerFailure? || h.HandleUnrecoverableFailure?)
                && h.response == m.value)
  {
    if m.value.messageType != Some(AckType) {
      var code := m.value.error.value;
      assert code in ErrorCodes;
    }
  }

  // ---- delivery receipts and control messages ----

  const ReceiptType := "receipt"
  const ControlType := "control"

  /**
   * handleControlMessage: only the control type CONNECTION_DRAINING runs a
   * hook; a null control type is a NullPointerException.
   */
  function ControlHook(m: ReceiptFields): (r: Result<Option<Hook>>)
    ensures r.Err? <==> m.controlType.None?
    ensures r.Err? ==> r.error == NullPointer
    ensures r.Ok? ==> (r.value.Some? <==> m.controlType == Some(ConnectionDraining))
    ensures r.Ok? && r.value.Some? ==> r.value.value == HandleConnectionDrainingFailure
  {
    match m.controlType
    case None => Err(NullPointer)
    case Some(c) =>
      if c == ConnectionDraining then Ok(Some(HandleConnectionDrainingFailure)) else Ok(None)
  }

  /**
   * onReceiveMessage of the receipt/control listener: the message type
   * "receipt" runs the delivery-receipt hook, any other type takes the
   * control path; a null message or message type is a NullPointerException.
   */
  function ReceiptOrControlHook(m: Option<ReceiptFields>): (r: Result<Option<Hook>>)
    ensures r.Err? <==>
              || m.None? || m.value.messageType.None?
              || (m.value.messageType != Some(ReceiptType) && m.value.controlType.None?)
    ensures r.Err? ==> r.error == NullPointer
    ensures m.Some? && r == Ok(Some(HandleDeliveryReceipt(m.value))) <==>
              m.Some? && m.value.messageType == Some(ReceiptType)
    ensures m.Some? && m.value.messageType.Some? && m.value.messageType != Some(ReceiptType) ==>
              r == ControlHook(m.value)
  {
    match m
    case None => Err(NullPointer)
    case Some(c) =>
      match c.messageType
      case None => Err(NullPointer)
      case Some(t) =>
        if t == ReceiptType then Ok(Some(HandleDeliveryReceipt(c))) else ControlHook(c)
  }

  // ---- upstream messages ----

  /** The message CcsClient.getInstance throws before prepareClient. */
  const NotPreparedMessage := "You have to prepare the client first"

  /** What the upstream listener does, in order. */
  datatype UpstreamEffect =
    | Processed(upstream: Option<UpstreamFields>)
    | AckSent(ack: Acknowledgement)

  datatype UpstreamSteps = UpstreamSteps(effects: seq<UpstreamEffect>, outcome: Outcome)

  /**
   * onReceiveMessage of the upstream listener: the source is read (a
   * NullPointerException when no source was set), the message is processed,
   * then the client singleton is fetched, then the message's
   * acknowledgement is sent.  Each failure stops the sequence where it
   * happens, so processing always comes first and at most one ack follows.
   */
  function UpstreamReaction(sourceSet: bool, clientPrepared: bool, m: Option<UpstreamFields>)
    : (s: UpstreamSteps)
    ensures !sourceSet ==> s == UpstreamSteps([], Fail(NullPointer))
    ensures sourceSet ==> 1 <= |s.effects| <= 2 && s.effects[0] == Processed(m)
    ensures |s.effects| == 2 <==> s.outcome.Pass?
    ensures s.outcome.Pass? <==>
              sourceSet && clientPrepared && m.Some? && GetAcknowledgement(m.value).Ok?
    ensures s.outcome.Pass? ==>
              s.effects[1] == AckSent(Acknowledgement(m.value.from, m.value.messageId, Some(AckType)))
    ensures sourceSet && !clientPrepared ==> s.outcome == Fail(IllegalState(NotPreparedMessage))
    ensures sourceSet && clientPrepared && m.None? ==> s.outcome == Fail(NullPointer)
    ensures sourceSet && clientPrepared && m.Some? && s.outcome.Fail? ==>
              s.outcome == Fail(Runtime(NoAckTargetMessage))
  {
    if !sourceSet then UpstreamSteps([], Fail(NullPointer))
    else if !clientPrepared then UpstreamSteps([Processed(m)], Fail(IllegalState(NotPreparedMessage)))
    else if m.None? then UpstreamSteps([Processed(m)], Fail(NullPointer))
    else match GetAcknowledgement(m.value)
      case Err(e) => UpstreamSteps([Processed(m)], Fail(e))
      case Ok(a) => UpstreamSteps([Processed(m), AckSent(a)], Pass)
  }

  // ---- the deferring listener ----

  /**
   * The log line of DeferringFcmMessageListener.onReceiveMessage: it asks a
   * null message for its class, and serialises the message, which fails for
   * an upstream message that cannot be acknowledged (Jackson also writes
   * the getter getAcknowledgement).  Only a message that survives the log
   * line reaches the result holder.
   */
  function DeferringLog(m: Inbound): (o: Outcome)
    ensures IsNull(m) ==> o == Fail(NullPointer)
    ensures !IsNull(m) ==>
              (o.Fail? <==> m.UpstreamIn? && (m.upstream.value.from.None? || m.upstream.value.messageId.None?))
    ensures !IsNull(m) && o.Fail? ==> o.error == Runtime(JsonProcessingMessage)
  {
    match m
    case UpstreamIn(u) =>
      if u.None? then Fail(NullPointer)
      else if UpstreamToString(u.value).Err? then Fail(UpstreamToString(u.value).error)
      else Pass
    case ResponseIn(r) => if r.None? then Fail(NullPointer) else Pass
    case ReceiptOrControlIn(c) => if c.None? then Fail(NullPointer) else Pass
  }
}
