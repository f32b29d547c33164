/**
 * Messages received from CCS: responses to downstream messages (ack/nack),
 * delivery receipts and control messages, upstream messages with the
 * acknowledgement owed for them, and the nack error codes.
 *
 * Each entity is a class with setters and a builder; its field values are
 * the `*Fields` datatypes, which is also what a listener is handed.  Reading
 * a parsed document into an entity (Jackson `readValue`) is `Bind*`:
 * Jackson fails on any property the class does not declare, and a `String`
 * property takes a JSON string or null.
 */
module Incoming {
  import opened Common
  import opened Json

  // ---- DownstreamMessageResponse error codes (ErrorResponseCodes) ----

  const InvalidJson := "INVALID_JSON"
  const BadRegistration := "BAD_REGISTRATION"
  const DeviceUnregistered := "DEVICE_UNREGISTERED"
  const BadAck := "BAD_ACK"
  const ServiceUnavailable := "SERVICE_UNAVAILABLE"
  const InternalServerError := "INTERNAL_SERVER_ERROR"
  const DeviceMessageRateExceeded := "DEVICE_MESSAGE_RATE_EXCEEDED"
  const TopicsMessageRateExceeded := "TOPICS_MESSAGE_RATE_EXCEEDED"
  const ConnectionDraining := "CONNECTION_DRAINING"

  const ErrorCodes: set<string> :=
    {InvalidJson, BadRegistration, DeviceUnregistered, BadAck, ServiceUnavailable,
     InternalServerError, DeviceMessageRateExceeded, TopicsMessageRateExceeded, ConnectionDraining}

  /** The nine error codes are pairwise distinct. */
  lemma ErrorCodesAreDistinct()
    ensures |ErrorCodes| == 9
  {
    var s1 := {InvalidJson, BadRegistration, DeviceUnregistered};
    var s2 := {BadAck, ServiceUnavailable, InternalServerError};
    var s3 := {DeviceMessageRateExceeded, TopicsMessageRateExceeded, ConnectionDraining};
    assert |s1| == 3 && |s2| == 3 && |s3| == 3;
    assert s1 !! s2 && s1 !! s3 && s2 !! s3;
    assert ErrorCodes == s1 + s2 + s3;
  }

  // ---- DownstreamMessageResponse ----

  const ResponseKeys: set<string> :=
    {"from", "message_id", "message_type", "registration_id", "error", "error_description"}

  datatype ResponseFields = ResponseFields(
    from: Option<string>,
    messageId: Option<string>,
    messageType: Option<string>,
    registrationId: Option<string>,
    error: Option<string>,
    errorDescription: Option<string>)

  /** The value toString writes under `key`; every property is NON_EMPTY. */
  function ResponseProperty(f: ResponseFields, key: string): Option<JsonValue>
  {
    if key == "from" then NonEmpty(f.from)
    else if key == "message_id" then NonEmpty(f.messageId)
    else if key == "message_type" then NonEmpty(f.messageType)
    else if key == "registration_id" then NonEmpty(f.registrationId)
    else if key == "error" then NonEmpty(f.error)
    else if key == "error_description" then NonEmpty(f.errorDescription)
    else None
  }

  /** DownstreamMessageResponse.toString. */
  function ResponseWire(f: ResponseFields): (w: JsonObject)
    ensures w.Keys <= ResponseKeys
    ensures forall k | k in w :: w[k].JString? && w[k].s != ""
  {
    map k | k in ResponseKeys && ResponseProperty(f, k).Some? :: ResponseProperty(f, k).value
  }

  /** readValue(json, DownstreamMessageResponse.class) on a parsed document. */
  function BindResponse(doc: JsonObject): (r: Option<ResponseFields>)
    ensures r.Some? <==>
              doc.Keys <= ResponseKeys && forall k | k in doc :: doc[k].JNull? || doc[k].JString?
    ensures r.Some? ==> r.value.messageType == StringAt(doc, "message_type")
    ensures r.Some? ==> r.value.error == StringAt(doc, "error")
  {
    if doc.Keys <= ResponseKeys
       && StringOrNullAt(doc, "from") && StringOrNullAt(doc, "message_id")
       && StringOrNullAt(doc, "message_type") && StringOrNullAt(doc, "registration_id")
       && StringOrNullAt(doc, "error") && StringOrNullAt(doc, "error_description")
    then
      Some(ResponseFields(StringAt(doc, "from"), StringAt(doc, "message_id"),
                          StringAt(doc, "message_type"), StringAt(doc, "registration_id"),
                          StringAt(doc, "error"), StringAt(doc, "error_description")))
    else None
  }

  /** Writing a response and reading it back loses exactly the empty strings. */
  lemma ResponseRoundTrip(f: ResponseFields)
    ensures BindResponse(ResponseWire(f)) ==
              Some(ResponseFields(DropEmpty(f.from), DropEmpty(f.messageId), DropEmpty(f.messageType),
                                  DropEmpty(f.registrationId), DropEmpty(f.error),
                                  DropEmpty(f.errorDescription)))
  {
    var w := ResponseWire(f);
    assert At(w, "from") == Nullable(DropEmpty(f.from));
    assert At(w, "message_id") == Nullable(DropEmpty(f.messageId));
    assert At(w, "message_type") == Nullable(DropEmpty(f.messageType));
    assert At(w, "registration_id") == Nullable(DropEmpty(f.registrationId));
    assert At(w, "error") == Nullable(DropEmpty(f.error));
    assert At(w, "error_description") == Nullable(DropEmpty(f.errorDescription));
  }

  class DownstreamMessageResponse {
    var from: Option<string>
    var messageId: Option<string>
    var messageType: Option<string>
    var registrationId: Option<string>
    var error: Option<string>
    var errorDescription: Option<string>

    function Fields(): ResponseFields
      reads this
    {
      ResponseFields(from, messageId, messageType, registrationId, error, errorDescription)
    }

    /** The no-argument constructor followed by Jackson's property writes. */
    constructor FromFields(f: ResponseFields)
      ensures Fields() == f
    {
      from := f.from;
      messageId := f.messageId;
      messageType := f.messageType;
      registrationId := f.registrationId;
      error := f.error;
      errorDescription := f.errorDescription;
    }

    /** The builder constructor copies every field except the registration id. */
    constructor FromBuilder(b: ResponseBuilder)
      ensures Fields() == b.Fields().(registrationId := None)
    {
      from := b.from;
      messageId := b.messageId;
      messageType := b.messageType;
      registrationId := None;
      error := b.error;
      errorDescription := b.errorDescription;
    }

    method SetFrom(from: Option<string>)
      modifies this`from
      ensures this.from == from
    {
      this.from := from;
    }

    method SetMessageId(messageId: Option<string>)
      modifies this`messageId
      ensures this.messageId == messageId
    {
      this.messageId := messageId;
    }

    method SetMessageType(messageType: Option<string>)
      modifies this`messageType
      ensures this.messageType == messageType
    {
      this.messageType := messageType;
    }

    method SetRegistrationId(registrationId: Option<string>)
      modifies this`registrationId
      ensures this.registrationId == registrationId
    {
      this.registrationId := registrationId;
    }

    method SetError(error: Option<string>)
      modifies this`error
      ensures this.error == error
    {
      this.error := error;
    }

    method SetErrorDescription(errorDescription: Option<string>)
      modifies this`errorDescription
      ensures this.errorDescription == errorDescription
    {
      this.errorDescription := errorDescription;
    }
  }

  /** DownstreamMessageResponse.Builder. */
  class ResponseBuilder {
    var from: Option<string>
    var messageId: Option<string>
    var messageType: Option<string>
    var registrationId: Option<string>
    var error: Option<string>
    var errorDescription: Option<string>

    function Fields(): ResponseFields
      reads this
    {
      ResponseFields(from, messageId, messageType, registrationId, error, errorDescription)
    }

    /** newBuilder(from, messageId, messageType). */
    constructor NewBuilder(from: Option<string>, messageId: Option<string>, messageType: Option<string>)
      ensures Fields() == ResponseFields(from, messageId, messageType, None, None, None)
    {
      this.from := from;
      this.messageId := messageId;
      this.messageType := messageType;
      registrationId := None;
      error := None;
      errorDescription := None;
    }

    method SetFrom(from: Option<string>)
      modifies this`from
      ensures this.from == from
    {
      this.from := from;
    }

    method SetMessageId(messageId: Option<string>)
      modifies this`messageId
      ensures this.messageId == messageId
    {
      this.messageId := messageId;
    }

    method SetMessageType(messageType: Option<string>)
      modifies this`messageType
      ensures this.messageType == messageType
    {
      this.messageType := messageType;
    }

    method SetRegistrationId(registrationId: Option<string>)
      modifies this`registrationId
      ensures this.registrationId == registrationId
    {
      this.registrationId := registrationId;
    }

    method SetError(error: Option<string>)
      modifies this`error
      ensures this.error == error
    {
      this.error := error;
    }

    method SetErrorDescription(errorDescription: Option<string>)
      modifies this`errorDescription
      ensures this.errorDescription == errorDescription
    {
      this.errorDescription := errorDescription;
    }

    /** The built response has no registration id, whatever was set here. */
    method Build() returns (r: DownstreamMessageResponse)
      ensures fresh(r) && r.Fields() == Fields().(registrationId := None)
    {
      r := new DownstreamMessageResponse.FromBuilder(this);
    }
  }

  // ---- DeliveryReceiptOrControlMessage ----

  const ReceiptKeys: set<string> :=
    {"message_type", "from", "message_id", "category", "data", "control_type"}

  datatype ReceiptFields = ReceiptFields(
    messageType: Option<string>,
    from: Option<string>,
    messageId: Option<string>,
    category: Option<string>,
    dataPayload: Option<JsonObject>,
    controlType: Option<string>)

  /** The value toString writes under `key`; every property is NON_EMPTY. */
  function ReceiptProperty(f: ReceiptFields, key: string): Option<JsonValue>
  {
    if key == "message_type" then NonEmpty(f.messageType)
    else if key == "from" then NonEmpty(f.from)
    else if key == "message_id" then NonEmpty(f.messageId)
    else if key == "category" then NonEmpty(f.category)
    else if key == "data" then NonEmptyObject(f.dataPayload)
    else if key == "control_type" then NonEmpty(f.controlType)
    else None
  }

  /** DeliveryReceiptOrControlMessage.toString. */
  function ReceiptWire(f: ReceiptFields): (w: JsonObject)
    ensures w.Keys <= ReceiptKeys
    ensures "data" in w <==> f.dataPayload.Some? && f.dataPayload.value != map[]
  {
    map k | k in ReceiptKeys && ReceiptProperty(f, k).Some? :: ReceiptProperty(f, k).value
  }

  /** readValue(json, DeliveryReceiptOrControlMessage.class) on a parsed document. */
  function BindReceipt(doc: JsonObject): (r: Option<ReceiptFields>)
    ensures r.Some? <==>
              && doc.Keys <= ReceiptKeys
              && (forall k | k in doc && k != "data" :: doc[k].JNull? || doc[k].JString?)
              && ObjectOrNullAt(doc, "data")
    ensures r.Some? ==> r.value.messageType == StringAt(doc, "message_type")
    ensures r.Some? ==> r.value.controlType == StringAt(doc, "control_type")
  {
    if doc.Keys <= ReceiptKeys
       && StringOrNullAt(doc, "message_type") && StringOrNullAt(doc, "from")
       && StringOrNullAt(doc, "message_id") && StringOrNullAt(doc, "category")
       && ObjectOrNullAt(doc, "data") && StringOrNullAt(doc, "control_type")
    then
      Some(ReceiptFields(StringAt(doc, "message_type"), StringAt(doc, "from"),
                         StringAt(doc, "message_id"), StringAt(doc, "category"),
                         ObjectAt(doc, "data"), StringAt(doc, "control_type")))
    else None
  }

  /** Writing a receipt and reading it back loses exactly the empty strings and maps. */
  lemma ReceiptRoundTrip(f: ReceiptFields)
    ensures BindReceipt(ReceiptWire(f)) ==
              Some(ReceiptFields(DropEmpty(f.messageType), DropEmpty(f.from), DropEmpty(f.messageId),
                                 DropEmpty(f.category), DropEmptyObject(f.dataPayload),
                                 DropEmpty(f.controlType)))
  {
    var w := ReceiptWire(f);
    assert At(w, "message_type") == Nullable(DropEmpty(f.messageType));
    assert At(w, "from") == Nullable(DropEmpty(f.from));
    assert At(w, "message_id") == Nullable(DropEmpty(f.messageId));
    assert At(w, "category") == Nullable(DropEmpty(f.category));
    assert ObjectAt(w, "data") == DropEmptyObject(f.dataPayload);
    assert At(w, "control_type") == Nullable(DropEmpty(f.controlType));
  }

  class DeliveryReceiptOrControlMessage {
    var messageType: Option<string>
    var from: Option<string>
    var messageId: Option<string>
    var category: Option<string>
    var dataPayload: Option<JsonObject>
    var controlType: Option<string>

    function Fields(): ReceiptFields
      reads this
    {
      ReceiptFields(messageType, from, messageId, category, dataPayload, controlType)
    }

    /** The no-argument constructor followed by Jackson's property writes. */
    constructor FromFields(f: ReceiptFields)
      ensures Fields() == f
    {
      messageType := f.messageType;
      from := f.from;
      messageId := f.messageId;
      category := f.category;
      dataPayload := f.dataPayload;
      controlType := f.controlType;
    }

    /** The builder constructor copies all six fields. */
    constructor FromBuilder(b: ReceiptBuilder)
      ensures Fields() == b.Fields()
    {
      messageType := b.messageType;
      category := b.category;
      controlType := b.controlType;
      dataPayload := b.dataPayload;
      from := b.from;
      messageId := b.messageId;
    }

    method SetMessageType(messageType: Option<string>)
      modifies this`messageType
      ensures this.messageType == messageType
    {
      this.messageType := messageType;
    }

    method SetFrom(from: Option<string>)
      modifies this`from
      ensures this.from == from
    {
      this.from := from;
    }

    method SetMessageId(messageId: Option<string>)
      modifies this`messageId
      ensures this.messageId == messageId
    {
      this.messageId := messageId;
    }

    method SetCategory(category: Option<string>)
      modifies this`category
      ensures this.category == category
    {
      this.category := category;
    }

    method SetDataPayload(dataPayload: Option<JsonObject>)
      modifies this`dataPayload
      ensures this.dataPayload == dataPayload
    {
      this.dataPayload := dataPayload;
    }

    method SetControlType(controlType: Option<string>)
      modifies this`controlType
      ensures this.controlType == controlType
    {
      this.controlType := controlType;
    }
  }

  /**
   * DeliveryReceiptOrControlMessage.Builder. Three setters keep the names of
   * DownstreamMessageResponse's builder but write other fields:
   * setRegistrationId writes the category, setError the data payload and
   * setErrorDescription the control type.
   */
  class ReceiptBuilder {
    var messageType: Option<string>
    var messageId: Option<string>
    var from: Option<string>
    var category: Option<string>
    var dataPayload: Option<JsonObject>
    var controlType: Option<string>

    function Fields(): ReceiptFields
      reads this
    {
      ReceiptFields(messageType, from, messageId, category, dataPayload, controlType)
    }

    /** newBuilder(messageType): only the message type is set. */
    constructor NewBuilder(messageType: Option<string>)
      ensures Fields() == ReceiptFields(messageType, None, None, None, None, None)
    {
      this.messageType := messageType;
      messageId := None;
      from := None;
      category := None;
      dataPayload := None;
      controlType := None;
    }

    method SetFrom(from: Option<string>)
      modifies this`from
      ensures this.from == from
    {
      this.from := from;
    }

    method SetMessageId(messageId: Option<string>)
      modifies this`messageId
      ensures this.messageId == messageId
    {
      this.messageId := messageId;
    }

    method SetMessageType(messageType: Option<string>)
      modifies this`messageType
      ensures this.messageType == messageType
    {
      this.messageType := messageType;
    }

    method SetRegistrationId(category: Option<string>)
      modifies this`category
      ensures this.category == category
    {
      this.category := category;
    }

    method SetError(data: Option<JsonObject>)
      modifies this`dataPayload
      ensures dataPayload == data
    {
      dataPayload := data;
    }

    method SetErrorDescription(controlType: Option<string>)
      modifies this`controlType
      ensures this.controlType == controlType
    {
      this.controlType := controlType;
    }

    method Build() returns (m: DeliveryReceiptOrControlMessage)
      ensures fresh(m) && m.Fields() == Fields()
    {
      m := new DeliveryReceiptOrControlMessage.FromBuilder(this);
    }
  }

  // ---- UpstreamMessage and its Acknowledgement ----

  /** The payload is declared under "dataPayload", not under "data". */
  const UpstreamKeys: set<string> := {"from", "category", "message_id", "dataPayload"}

  datatype UpstreamFields = UpstreamFields(
    from: Option<string>,
    category: Option<string>,
    messageId: Option<string>,
    dataPayload: Option<JsonObject>)

  datatype Acknowledgement = Acknowledgement(
    to: Option<string>,
    messageId: Option<string>,
    messageType: Option<string>)

  const AckType := "ack"
  const NoAckTargetMessage :=
    "Either there is no user to send the Acknowledgement or the Message Id is absent."
  const JsonProcessingMessage := "There was a problem processing Json."

  /**
   * getAcknowledgement: the ack goes back to the sender and names the
   * message; without a sender or an id there is nothing to acknowledge.
   */
  function GetAcknowledgement(u: UpstreamFields): (r: Result<Acknowledgement>)
    ensures r.Ok? <==> u.from.Some? && u.messageId.Some?
    ensures r.Ok? ==> r.value == Acknowledgement(u.from, u.messageId, Some(AckType))
    ensures r.Err? ==> r.error == Runtime(NoAckTargetMessage)
  {
    if u.from.None? || u.messageId.None? then Err(Runtime(NoAckTargetMessage))
    else Ok(Acknowledgement(u.from, u.messageId, Some(AckType)))
  }

  /** Acknowledgement.toString: `to`, `message_id`, `message_type`, all NON_EMPTY. */
  function AckWire(a: Acknowledgement): (w: JsonObject)
    ensures w.Keys <= {"to", "message_id", "message_type"}
    ensures "to" in w <==> a.to.Some? && a.to.value != ""
    ensures "message_id" in w <==> a.messageId.Some? && a.messageId.value != ""
    ensures "message_type" in w <==> a.messageType.Some? && a.messageType.value != ""
  {
    Entry("to", NonEmpty(a.to))
    + Entry("message_id", NonEmpty(a.messageId))
    + Entry("message_type", NonEmpty(a.messageType))
  }

  /** The value the four declared properties put under `key`; all are NON_EMPTY. */
  function UpstreamProperty(f: UpstreamFields, key: string): Option<JsonValue>
  {
    if key == "from" then NonEmpty(f.from)
    else if key == "category" then NonEmpty(f.category)
    else if key == "message_id" then NonEmpty(f.messageId)
    else if key == "dataPayload" then NonEmptyObject(f.dataPayload)
    else None
  }

  /** The document those four properties make up. */
  function UpstreamDocument(f: UpstreamFields): (w: JsonObject)
    ensures w.Keys <= UpstreamKeys
  {
    map k | k in UpstreamKeys && UpstreamProperty(f, k).Some? :: UpstreamProperty(f, k).value
  }

  /**
   * UpstreamMessage.toString. Jackson also writes the public getter
   * getAcknowledgement as the property "acknowledgement"; when that getter
   * throws, serialisation fails and toString reports a JSON processing error.
   */
  function UpstreamToString(f: UpstreamFields): (r: Result<JsonObject>)
    ensures r.Ok? <==> f.from.Some? && f.messageId.Some?
    ensures r.Err? ==> r.error == Runtime(JsonProcessingMessage)
    ensures r.Ok? ==> r.value.Keys == UpstreamDocument(f).Keys + {"acknowledgement"}
    ensures r.Ok? ==> r.value["acknowledgement"] ==
                        JObject(AckWire(Acknowledgement(f.from, f.messageId, Some(AckType))))
  {
    match GetAcknowledgement(f)
    case Err(_) => Err(Runtime(JsonProcessingMessage))
    case Ok(a) => Ok(UpstreamDocument(f)["acknowledgement" := JObject(AckWire(a))])
  }

  /** readValue(json, UpstreamMessage.class) on a parsed document. */
  function BindUpstream(doc: JsonObject): (r: Option<UpstreamFields>)
    ensures r.Some? <==>
              && doc.Keys <= UpstreamKeys
              && (forall k | k in doc && k != "dataPayload" :: doc[k].JNull? || doc[k].JString?)
              && ObjectOrNullAt(doc, "dataPayload")
    ensures r.Some? ==> r.value.from == StringAt(doc, "from")
    ensures r.Some? ==> r.value.messageId == StringAt(doc, "message_id")
  {
    if doc.Keys <= UpstreamKeys
       && StringOrNullAt(doc, "from") && StringOrNullAt(doc, "category")
       && StringOrNullAt(doc, "message_id") && ObjectOrNullAt(doc, "dataPayload")
    then
      Some(UpstreamFields(StringAt(doc, "from"), StringAt(doc, "category"),
                          StringAt(doc, "message_id"), ObjectAt(doc, "dataPayload")))
    else None
  }

  /** Writing the four properties and reading them back loses only empty values. */
  lemma UpstreamRoundTrip(f: UpstreamFields)
    ensures BindUpstream(UpstreamDocument(f)) ==
              Some(UpstreamFields(DropEmpty(f.from), DropEmpty(f.category), DropEmpty(f.messageId),
                                  DropEmptyObject(f.dataPayload)))
  {
    var w := UpstreamDocument(f);
    assert At(w, "from") == Nullable(DropEmpty(f.from));
    assert At(w, "category") == Nullable(DropEmpty(f.category));
    assert At(w, "message_id") == Nullable(DropEmpty(f.messageId));
    assert ObjectAt(w, "dataPayload") == DropEmptyObject(f.dataPayload);
  }

  /**
   * A document that carries its payload under "data" does not bind to an
   * UpstreamMessage: "data" is not one of its declared properties.
   */
  lemma UpstreamDataKeyDoesNotBind(doc: JsonObject)
    requires "data" in doc
    ensures BindUpstream(doc).None?
  {
    assert "data" !in UpstreamKeys;
  }

  class UpstreamMessage {
    var from: Option<string>
    var category: Option<string>
    var messageId: Option<string>
    var dataPayload: Option<JsonObject>

    function Fields(): UpstreamFields
      reads this
    {
      UpstreamFields(from, category, messageId, dataPayload)
    }

    /** The no-argument constructor followed by Jackson's property writes. */
    constructor FromFields(f: UpstreamFields)
      ensures Fields() == f
    {
      from := f.from;
      category := f.category;
      messageId := f.messageId;
      dataPayload := f.dataPayload;
    }

    /** The builder constructor copies all four fields. */
    constructor FromBuilder(b: UpstreamBuilder)
      ensures Fields() == b.Fields()
    {
      from := b.from;
      messageId := b.messageId;
      category := b.category;
      dataPayload := b.dataPayload;
    }

    method SetFrom(from: Option<string>)
      modifies this`from
      ensures this.from == from
    {
      this.from := from;
    }

    method SetCategory(category: Option<string>)
      modifies this`category
      ensures this.category == category
    {
      this.category := category;
    }

    method SetMessageId(messageId: Option<string>)
      modifies this`messageId
      ensures this.messageId == messageId
    {
      this.messageId := messageId;
    }

    method SetDataPayload(dataPayload: Option<JsonObject>)
      modifies this`dataPayload
      ensures this.dataPayload == dataPayload
    {
      this.dataPayload := dataPayload;
    }
  }

  /**
   * UpstreamMessage.Builder. setRegistrationId writes the category and
   * setError the data payload.
   */
  class UpstreamBuilder {
    var messageId: Option<string>
    var from: Option<string>
    var category: Option<string>
    var dataPayload: Option<JsonObject>

    function Fields(): UpstreamFields
      reads this
    {
      UpstreamFields(from, category, messageId, dataPayload)
    }

    /** newBuilder(messageId, from, category). */
    constructor NewBuilder(messageId: Option<string>, from: Option<string>, category: Option<string>)
      ensures Fields() == UpstreamFields(from, category, messageId, None)
    {
      this.messageId := messageId;
      this.from := from;
      this.category := category;
      dataPayload := None;
    }

    method SetFrom(from: Option<string>)
      modifies this`from
      ensures this.from == from
    {
      this.from := from;
    }

    method SetMessageId(messageId: Option<string>)
      modifies this`messageId
      ensures this.messageId == messageId
    {
      this.messageId := messageId;
    }

    method SetRegistrationId(category: Option<string>)
      modifies this`category
      ensures this.category == category
    {
      this.category := category;
    }

    method SetError(data: Option<JsonObject>)
      modifies this`dataPayload
      ensures dataPayload == data
    {
      dataPayload := data;
    }

    method Build() returns (m: UpstreamMessage)
      ensures fresh(m) && m.Fields() == Fields()
    {
      m := new UpstreamMessage.FromBuilder(this);
    }
  }
}
