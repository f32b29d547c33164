/**
 * The application-level Message of the messaging model: a typed envelope
 * between two users that carries the downstream FCM message to send, and
 * obtainFCMMessage, which picks that downstream message by the type code.
 */
module AppMessage {
  import opened Common
  import opened Json
  import opened Outgoing

  // ---- type codes ----

  const TutoringRequest: Int32 := 0x0002
  const ChatTextMessage: Int32 := 0x0004
  const FcmDataMessage: Int32 := 0x0008
  const FcmNotificationMessage: Int32 := 0x0016

  /** The type codes a Message accepts. */
  const MessageTypes: set<Int32> :=
    {TutoringRequest, ChatTextMessage, FcmDataMessage, FcmNotificationMessage}

  /** The type codes whose downstream message is the notification message. */
  const NotificationTypes: set<Int32> := {TutoringRequest, ChatTextMessage, FcmNotificationMessage}

  const InvalidTypeMessage := "Invalid message type."

  /**
   * validateInput(int): the switch over the type codes; any code but the
   * four is an IllegalStateException.
   */
  function ValidateType(t: Int32): (o: Outcome)
    ensures o.Pass? <==> t in MessageTypes
    ensures o.Fail? ==> o.error == IllegalState(InvalidTypeMessage)
  {
    if t == TutoringRequest then Pass
    else if t == ChatTextMessage then Pass
    else if t == FcmDataMessage then Pass
    else if t == FcmNotificationMessage then Pass
    else Fail(IllegalState(InvalidTypeMessage))
  }

  /**
   * validateInput(String), i.e. UUID.fromString: a null sender is a
   * NullPointerException and text that is not a UUID an
   * IllegalArgumentException.  What counts as a UUID is the parameter
   * `isUuid`.
   */
  function ValidateFrom(from: Option<string>, isUuid: string -> bool): (o: Outcome)
    ensures o.Pass? <==> from.Some? && isUuid(from.value)
    ensures from.None? ==> o == Fail(NullPointer)
    ensures from.Some? && !isUuid(from.value) ==> o == Fail(IllegalArgument)
  {
    if from.None? then Fail(NullPointer)
    else if !isUuid(from.value) then Fail(IllegalArgument)
    else Pass
  }

  // ---- selecting the downstream message ----

  /** Which of the two downstream-message fields a type code selects. */
  datatype SubMessage = DataSub | NotificationSub

  /**
   * The switch of obtainFCMMessage: a null type code fails the unboxing with
   * a NullPointerException, the data code selects the data message, the
   * other three accepted codes the notification message, and any other code
   * is an IllegalStateException.
   */
  function Selection(t: Option<Int32>): (r: Result<SubMessage>)
    ensures t.None? ==> r == Err(NullPointer)
    ensures r == Ok(DataSub) <==> t == Some(FcmDataMessage)
    ensures r == Ok(NotificationSub) <==> t.Some? && t.value in NotificationTypes
    ensures t.Some? && r.Err? ==> r.error == IllegalState(InvalidTypeMessage)
  {
    match t
    case None => Err(NullPointer)
    case Some(code) =>
      if code == TutoringRequest then Ok(NotificationSub)
      else if code == ChatTextMessage then Ok(NotificationSub)
      else if code == FcmDataMessage then Ok(DataSub)
      else if code == FcmNotificationMessage then Ok(NotificationSub)
      else Err(IllegalState(InvalidTypeMessage))
  }

  /**
   * obtainFCMMessage selects a downstream message for exactly the type codes
   * a Message accepts, and fails with the same exception for the rest.
   */
  lemma {:induction false} SelectionAgreesWithValidation(t: Int32)
    ensures Selection(Some(t)).Ok? <==> ValidateType(t).Pass?
    ensures Selection(Some(t)).Err? ==> Fail(Selection(Some(t)).error) == ValidateType(t)
  {
  }

  /** The selected object, or null: the set of objects obtainFCMMessage may change. */
  function Selected(message: Message?): (d: DownstreamMessage?)
    reads message
  {
    if message == null then null
    else match Selection(message.messageType)
      case Err(_) => null
      case Ok(DataSub) => message.dataMessage
      case Ok(NotificationSub) => message.notificationMessage
  }

  function TargetSet(d: DownstreamMessage?): set<DownstreamMessage>
  {
    if d == null then {} else {d}
  }

  class Message {
    var messageType: Option<Int32>
    var from: Option<string>
    var to: Option<string>
    /** A DataMessage, or a NotificationMessage (its subclass). */
    var dataMessage: DownstreamMessage?
    var notificationMessage: DownstreamMessage?

    /** The field typed NotificationMessage holds nothing else. */
    ghost predicate Valid()
      reads this`notificationMessage
    {
      notificationMessage != null ==> notificationMessage.kind == NotificationMessageKind
    }

    /** The protected no-argument constructor used for deserialisation. */
    constructor Empty()
      ensures Valid()
      ensures messageType.None? && from.None? && to.None?
      ensures dataMessage == null && notificationMessage == null
    {
      messageType := None;
      from := None;
      to := None;
      dataMessage := null;
      notificationMessage := null;
    }

    /**
     * The public constructor Message(from, to, messageType): the type code
     * is checked first, then the sender; a failed check throws before
     * anything is stored, so no Message comes out.
     */
    static method Create(from: Option<string>, to: Option<string>, messageType: Int32,
                         isUuid: string -> bool)
      returns (r: Result<Message>)
      ensures r.Ok? <==> messageType in MessageTypes && from.Some? && isUuid(from.value)
      ensures ValidateType(messageType).Fail? ==> r == Err(ValidateType(messageType).error)
      ensures ValidateType(messageType).Pass? && ValidateFrom(from, isUuid).Fail? ==>
                r == Err(ValidateFrom(from, isUuid).error)
      ensures r.Ok? ==> fresh(r.value) && r.value.Valid()
      ensures r.Ok? ==> r.value.messageType == Some(messageType)
      ensures r.Ok? ==> r.value.from == from && r.value.to == to
      ensures r.Ok? ==> r.value.dataMessage == null && r.value.notificationMessage == null
    {
      var typeCheck := ValidateType(messageType);
      if typeCheck.Fail? {
        return Err(typeCheck.error);
      }
      var fromCheck := ValidateFrom(from, isUuid);
      if fromCheck.Fail? {
        return Err(fromCheck.error);
      }
      var m := new Message.Empty();
      m.from := from;
      m.to := to;
      m.messageType := Some(messageType);
      r := Ok(m);
    }

    function GetFrom(): Option<string>
      reads this`from
    {
      from
    }

    /** setFrom checks the sender first; a rejected sender leaves the field as it was. */
    method SetFrom(from: Option<string>, isUuid: string -> bool) returns (o: Outcome)
      modifies this`from
      ensures o == ValidateFrom(from, isUuid)
      ensures o.Pass? ==> this.from == from
      ensures o.Fail? ==> this.from == old(this.from)
    {
      o := ValidateFrom(from, isUuid);
      if o.Pass? {
        this.from := from;
      }
    }

    function GetTo(): Option<string>
      reads this`to
    {
      to
    }

    /** setTo stores any recipient, null included. */
    method SetTo(to: Option<string>)
      modifies this`to
      ensures this.to == to
    {
      this.to := to;
    }

    function GetMessageType(): Option<Int32>
      reads this`messageType
    {
      messageType
    }

    /** setMessageType checks the code first; a rejected code leaves the field as it was. */
    method SetMessageType(messageType: Int32) returns (o: Outcome)
      modifies this`messageType
      ensures o == ValidateType(messageType)
      ensures o.Pass? <==> messageType in MessageTypes
      ensures o.Pass? ==> this.messageType == Some(messageType)
      ensures o.Fail? ==> this.messageType == old(this.messageType)
    {
      o := ValidateType(messageType);
      if o.Pass? {
        this.messageType := Some(messageType);
      }
    }

    function GetDataMessage(): DownstreamMessage?
      reads this`dataMessage
    {
      dataMessage
    }

    method SetDataMessage(dataMessage: DownstreamMessage?)
      modifies this`dataMessage
      ensures this.dataMessage == dataMessage
    {
      this.dataMessage := dataMessage;
    }

    function GetNotificationMessage(): DownstreamMessage?
      reads this`notificationMessage
    {
      notificationMessage
    }

    /** The parameter is typed NotificationMessage. */
    method SetNotificationMessage(notificationMessage: DownstreamMessage?)
      requires notificationMessage != null ==> notificationMessage.kind == NotificationMessageKind
      modifies this`notificationMessage
      ensures Valid()
      ensures this.notificationMessage == notificationMessage
    {
      this.notificationMessage := notificationMessage;
    }
  }

  /**
   * obtainFCMMessage: the downstream message the type code selects, after
   * asking it in place for a delivery receipt.  A null Message, a null or
   * unknown type code and a null selected field are the exceptions of the
   * source; only the selected object's receipt flag changes.
   */
  method ObtainFcmMessage(message: Message?) returns (r: Result<DownstreamMessage>)
    modifies TargetSet(Selected(message))`deliveryReceiptRequested
    ensures message == null ==> r == Err(NullPointer)
    ensures message != null && Selection(message.messageType).Err? ==>
              r == Err(Selection(message.messageType).error)
    ensures message != null && Selection(message.messageType).Ok? && Selected(message) == null ==>
              r == Err(NullPointer)
    ensures message != null && Selection(message.messageType) == Ok(DataSub)
              && message.dataMessage != null ==>
              r == Ok(message.dataMessage)
    ensures message != null && Selection(message.messageType) == Ok(NotificationSub)
              && message.notificationMessage != null ==>
              r == Ok(message.notificationMessage)
    ensures r.Ok? ==> r.value.deliveryReceiptRequested == Some(true)
    ensures r.Ok? ==> DeliveryReceiptRequestedKey in r.value.Wire()
                      && r.value.Wire()[DeliveryReceiptRequestedKey] == JBool(true)
    ensures r.Ok? && message.Valid() && message.messageType.value in NotificationTypes ==>
              r.value.kind == NotificationMessageKind
  {
    if message == null {
      return Err(NullPointer);
    }
    var selection := Selection(message.GetMessageType());
    if selection.Err? {
      return Err(selection.error);
    }
    var target := if selection.value == DataSub then message.GetDataMessage()
                  else message.GetNotificationMessage();
    if target == null {
      return Err(NullPointer);
    }
    target.SetDeliveryReceiptRequested(Some(true));
    ObtainedWireRequestsReceipt(target.Snapshot(), target.dataPayload, target.notificationPayload);
    r := Ok(target);
  }

  /** A header asking for a receipt puts `delivery_receipt_requested: true` on the wire. */
  lemma ObtainedWireRequestsReceipt(h: Header, data: Option<NullableStringMap>,
                                    notification: Option<JsonObject>)
    requires h.deliveryReceiptRequested == Some(true)
    ensures DeliveryReceiptRequestedKey in MessageWire(h, data, notification)
    ensures MessageWire(h, data, notification)[DeliveryReceiptRequestedKey] == JBool(true)
  {
    HeaderWireFields(h);
    assert DeliveryReceiptRequestedKey in HeaderKeys;
  }
}
