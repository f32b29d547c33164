# FCM CCS endpoint — a Dafny model

This project models the core of a Spring Boot back end that talks to Firebase Cloud Messaging
over its XMPP connection server (CCS). The model covers:

- **Outbound messages** (module `Outgoing`). There are three message classes:
  `AbstractDownstreamMessage`, `DataMessage` and `NotificationMessage`. Each has a builder and
  its wire document. The message id is assigned lazily on first serialisation. The notification
  payload has its own builder and turns into an attribute map.
- **Inbound messages** (module `Incoming`). There are three classes: the ack/nack
  `DownstreamMessageResponse`, `DeliveryReceiptOrControlMessage` and `UpstreamMessage` (which
  carries an `Acknowledgement`). Each has a builder, its serialised document and its typed
  binding from a parsed JSON document.
- **`MessageUtils.createJsonAck`** (module `MessageUtils`), and how it relates to the
  acknowledgement that an upstream message produces.
- **`FcmMessageSourceViewer`** (module `SourceViewers`). It caches the raw stanza's JSON text
  and its parsed map.
- **The listeners** (modules `Reactions` and `Client`):
  - the three abstract category listeners: their error-code switch, their hooks, and the
    acknowledgement sent for upstream messages;
  - `DeferringFcmMessageListener`, which hands a message to a Spring `DeferredResult`.
- **`FcmStanzaListener.processStanza`** (module `Client`).
  - Classification by `message_type`.
  - Typed binding.
  - Dispatch to the listener in that slot.
  - The RuntimeException for an unknown type.
- **`CcsClient`** (module `Client`):
  - its singleton;
  - the listener defaults installed by `connect`;
  - `send`, `sendAsync` and the `StanzaSendingTask`;
  - `sendBroadcast`.
- **The application's `Message`** (module `AppMessage`):
  - its input validation;
  - `obtainFCMMessage`.

How the Java is represented:

- **Null and exceptions.** A Java `null` is `Option.None`, or a null reference for an object the
  source mutates. A thrown exception is a `JavaException` value in a `Result` or `Outcome`.
- **JSON.** JSON documents are maps from keys to `JsonValue` (module `Json`). Jackson's text
  syntax is not modelled. A stanza carries its FCM packet's JSON text together with what parsing
  that text produces.
- **Class hierarchies.** The message classes and builders are each one Dafny class with a `kind`
  constant. So are the listener classes (`FcmMessageListener` with a `ListenerKind` and a
  `Category`). The hooks that subclasses supply are recorded, in order, in the listener's
  `hooks` sequence.
- **The client.** `CcsClient.sInstance` is the field of a `ClientRegistry` object.
  - What the XMPP connection sends is the `sent` sequence.
  - Tasks handed to the executor are the `tasks` sequence. `RunTask` runs one of them.
- **Oracles.** Randomness and calls into libraries the model cannot see are parameters:
  - `freshId` is the id `MessageUtils.getUniqueMessageId()` would return (a time-based UUID);
  - `isUuid` is the verdict of `UUID.fromString`.

Behaviour of the code worth noting:

- **Request correlation.** A deferring listener holds ONE `DeferredResult` slot. Setting it
  overwrites the slot (`OverwrittenHolderIsNotOffered`). The slot is never cleared, and the
  holder keeps the first result it is offered, whatever message id the result carries.
- **Unknown messages.** An unknown `message_type` throws a RuntimeException out of
  `processStanza`. A nack with an unknown or missing error code is only logged and runs no
  hook.
- **Null payloads.** A stanza whose JSON text is `null` parses to a null map, and
  `processStanza` then fails with a NullPointerException when it looks up the message type.
- **Deserialisation failures.** A document that does not bind to its class is still handed to
  the listener, as `null`.
- **Notification extras.** The extras are nested under their own `notificationExtras` key
  inside the notification map.
- **`NotificationMessage.Builder.setNotificationPayload`** assigns the field to itself.
  `BuiltNotificationHasNoPayload` proves that a notification message built through the public
  builder therefore never carries a `notification` property.
- **Misleading setter names.** Several builder setters write a field their name does not
  mention. For example, `DeliveryReceiptOrControlMessage.Builder.setError` writes `data`. The
  model keeps these writes as the code has them.

## Model

| member | source | states |
|---|---|---|
| Incoming.ErrorCodesAreDistinct | src/main/java/com/learncity/backend_flexible/messaging/framework/message/model/incoming/DownstreamMessageResponse.java:266-360 | The nine nack error-code constants are nine different strings. |
| Incoming.ResponseWire | src/main/java/com/learncity/backend_flexible/messaging/framework/message/model/incoming/DownstreamMessageResponse.java:17-110 | toString writes only declared properties (from, message_id, message_type, registration_id, error, error_description), each a non-empty string. |
| Incoming.BindResponse | src/main/java/com/learncity/backend_flexible/messaging/framework/message/model/incoming/DownstreamMessageResponse.java:30-92 | A parsed document binds to a response exactly when every key is a declared property holding a string or null; message_type and error are read from their keys. |
| Incoming.ResponseRoundTrip | src/main/java/com/learncity/backend_flexible/messaging/framework/message/model/incoming/DownstreamMessageResponse.java:30-110 | Serialising a response and binding the result gives back every field, except that empty strings come back as null. |
| Incoming.DownstreamMessageResponse.FromFields | src/main/java/com/learncity/backend_flexible/messaging/framework/message/model/incoming/DownstreamMessageResponse.java:120-122 | The no-argument constructor plus the property writes of deserialisation yield exactly the given fields. |
| Incoming.DownstreamMessageResponse.FromBuilder | src/main/java/com/learncity/backend_flexible/messaging/framework/message/model/incoming/DownstreamMessageResponse.java:124-130 | The builder constructor copies from, message id, type, error and description, and leaves the registration id null. |
| Incoming.DownstreamMessageResponse.SetFrom | src/main/java/com/learncity/backend_flexible/messaging/framework/message/model/incoming/DownstreamMessageResponse.java:136-138 | Sets `from` and no other field. |
| Incoming.DownstreamMessageResponse.SetMessageId | src/main/java/com/learncity/backend_flexible/messaging/framework/message/model/incoming/DownstreamMessageResponse.java:144-146 | Sets the message id and no other field. |
| Incoming.DownstreamMessageResponse.SetMessageType | src/main/java/com/learncity/backend_flexible/messaging/framework/message/model/incoming/DownstreamMessageResponse.java:152-154 | Sets the message type and no other field. |
| Incoming.DownstreamMessageResponse.SetRegistrationId | src/main/java/com/learncity/backend_flexible/messaging/framework/message/model/incoming/DownstreamMessageResponse.java:160-162 | Sets the registration id and no other field. |
| Incoming.DownstreamMessageResponse.SetError | src/main/java/com/learncity/backend_flexible/messaging/framework/message/model/incoming/DownstreamMessageResponse.java:168-170 | Sets the error and no other field. |
| Incoming.DownstreamMessageResponse.SetErrorDescription | src/main/java/com/learncity/backend_flexible/messaging/framework/message/model/incoming/DownstreamMessageResponse.java:176-178 | Sets the error description and no other field. |
| Incoming.ResponseBuilder.NewBuilder | src/main/java/com/learncity/backend_flexible/messaging/framework/message/model/incoming/DownstreamMessageResponse.java:192-196 | newBuilder sets exactly from, message id and type; the optional fields start null. |
| Incoming.ResponseBuilder.SetFrom | src/main/java/com/learncity/backend_flexible/messaging/framework/message/model/incoming/DownstreamMessageResponse.java:198-201 | Sets `from` and no other builder field. |
| Incoming.ResponseBuilder.SetMessageId | src/main/java/com/learncity/backend_flexible/messaging/framework/message/model/incoming/DownstreamMessageResponse.java:203-206 | Sets the message id and no other builder field. |
| Incoming.ResponseBuilder.SetMessageType | src/main/java/com/learncity/backend_flexible/messaging/framework/message/model/incoming/DownstreamMessageResponse.java:208-211 | Sets the message type and no other builder field. |
| Incoming.ResponseBuilder.SetRegistrationId | src/main/java/com/learncity/backend_flexible/messaging/framework/message/model/incoming/DownstreamMessageResponse.java:213-216 | Sets the registration id and no other builder field. |
| Incoming.ResponseBuilder.SetError | src/main/java/com/learncity/backend_flexible/messaging/framework/message/model/incoming/DownstreamMessageResponse.java:218-221 | Sets the error and no other builder field. |
| Incoming.ResponseBuilder.SetErrorDescription | src/main/java/com/learncity/backend_flexible/messaging/framework/message/model/incoming/DownstreamMessageResponse.java:223-226 | Sets the error description and no other builder field. |
| Incoming.ResponseBuilder.Build | src/main/java/com/learncity/backend_flexible/messaging/framework/message/model/incoming/DownstreamMessageResponse.java:237-239 | The built response has the builder's fields with a null registration id, whatever was set on the builder. |
| Incoming.ReceiptWire | src/main/java/com/learncity/backend_flexible/messaging/framework/message/model/incoming/DeliveryReceiptOrControlMessage.java:29-216 | toString writes only the six declared properties; `data` appears exactly when the payload is a non-empty map. |
| Incoming.BindReceipt | src/main/java/com/learncity/backend_flexible/messaging/framework/message/model/incoming/DeliveryReceiptOrControlMessage.java:48-130 | A document binds exactly when every key is declared, `data` holds an object or null and the rest strings or null; message_type and control_type are read from their keys. |
| Incoming.ReceiptRoundTrip | src/main/java/com/learncity/backend_flexible/messaging/framework/message/model/incoming/DeliveryReceiptOrControlMessage.java:48-130 | Serialising a receipt and binding the result gives back every field, with empty strings and empty maps as null. |
| Incoming.DeliveryReceiptOrControlMessage.FromFields | src/main/java/com/learncity/backend_flexible/messaging/framework/message/model/incoming/DeliveryReceiptOrControlMessage.java:135-136 | The no-argument constructor plus deserialisation's property writes yield exactly the given fields. |
| Incoming.DeliveryReceiptOrControlMessage.FromBuilder | src/main/java/com/learncity/backend_flexible/messaging/framework/message/model/incoming/DeliveryReceiptOrControlMessage.java:142-149 | The builder constructor copies all six fields. |
| Incoming.DeliveryReceiptOrControlMessage.SetMessageType | src/main/java/com/learncity/backend_flexible/messaging/framework/message/model/incoming/DeliveryReceiptOrControlMessage.java:155-157 | Sets the message type and no other field. |
| Incoming.DeliveryReceiptOrControlMessage.SetFrom | src/main/java/com/learncity/backend_flexible/messaging/framework/message/model/incoming/DeliveryReceiptOrControlMessage.java:163-165 | Sets `from` and no other field. |
| Incoming.DeliveryReceiptOrControlMessage.SetMessageId | src/main/java/com/learncity/backend_flexible/messaging/framework/message/model/incoming/DeliveryReceiptOrControlMessage.java:171-173 | Sets the message id and no other field. |
| Incoming.DeliveryReceiptOrControlMessage.SetCategory | src/main/java/com/learncity/backend_flexible/messaging/framework/message/model/incoming/DeliveryReceiptOrControlMessage.java:179-181 | Sets the category and no other field. |
| Incoming.DeliveryReceiptOrControlMessage.SetDataPayload | src/main/java/com/learncity/backend_flexible/messaging/framework/message/model/incoming/DeliveryReceiptOrControlMessage.java:187-189 | Sets the data payload and no other field. |
| Incoming.DeliveryReceiptOrControlMessage.SetControlType | src/main/java/com/learncity/backend_flexible/messaging/framework/message/model/incoming/DeliveryReceiptOrControlMessage.java:195-197 | Sets the control type and no other field. |
| Incoming.ReceiptBuilder.NewBuilder | src/main/java/com/learncity/backend_flexible/messaging/framework/message/model/incoming/DeliveryReceiptOrControlMessage.java:233-235 | newBuilder sets only the message type; the other five fields start null. |
| Incoming.ReceiptBuilder.SetFrom | src/main/java/com/learncity/backend_flexible/messaging/framework/message/model/incoming/DeliveryReceiptOrControlMessage.java:237-240 | Sets `from` and no other builder field. |
| Incoming.ReceiptBuilder.SetMessageId | src/main/java/com/learncity/backend_flexible/messaging/framework/message/model/incoming/DeliveryReceiptOrControlMessage.java:242-245 | Sets the message id and no other builder field. |
| Incoming.ReceiptBuilder.SetMessageType | src/main/java/com/learncity/backend_flexible/messaging/framework/message/model/incoming/DeliveryReceiptOrControlMessage.java:247-250 | Sets the message type and no other builder field. |
| Incoming.ReceiptBuilder.SetRegistrationId | src/main/java/com/learncity/backend_flexible/messaging/framework/message/model/incoming/DeliveryReceiptOrControlMessage.java:252-255 | Despite its name, writes the category, and only the category. |
| Incoming.ReceiptBuilder.SetError | src/main/java/com/learncity/backend_flexible/messaging/framework/message/model/incoming/DeliveryReceiptOrControlMessage.java:257-260 | Despite its name, writes the data payload, and only the data payload. |
| Incoming.ReceiptBuilder.SetErrorDescription | src/main/java/com/learncity/backend_flexible/messaging/framework/message/model/incoming/DeliveryReceiptOrControlMessage.java:262-265 | Despite its name, writes the control type, and only the control type. |
| Incoming.ReceiptBuilder.Build | src/main/java/com/learncity/backend_flexible/messaging/framework/message/model/incoming/DeliveryReceiptOrControlMessage.java:276-278 | The built message has exactly the builder's six fields. |
| Incoming.GetAcknowledgement | src/main/java/com/learncity/backend_flexible/messaging/framework/message/model/incoming/UpstreamMessage.java:77-82 | Fails with the no-target RuntimeException exactly when from or message id is null; otherwise the ack goes to `from`, names the message id and has type "ack". |
| Incoming.AckWire | src/main/java/com/learncity/backend_flexible/messaging/framework/message/model/incoming/UpstreamMessage.java:196-235 | The ack's document has only to, message_id and message_type, each present exactly when its value is non-null and non-empty. |
| Incoming.UpstreamDocument | src/main/java/com/learncity/backend_flexible/messaging/framework/message/model/incoming/UpstreamMessage.java:17-57 | The four declared properties make up the document; no other key appears. |
| Incoming.UpstreamToString | src/main/java/com/learncity/backend_flexible/messaging/framework/message/model/incoming/UpstreamMessage.java:65-82 | toString succeeds exactly when the ack can be built; it then adds the `acknowledgement` property holding the ack's document, and otherwise reports a JSON processing error. |
| Incoming.BindUpstream | src/main/java/com/learncity/backend_flexible/messaging/framework/message/model/incoming/UpstreamMessage.java:28-57 | A document binds exactly when every key is one of from, category, message_id, dataPayload with the right value kinds; from and message id are read from their keys. |
| Incoming.UpstreamRoundTrip | src/main/java/com/learncity/backend_flexible/messaging/framework/message/model/incoming/UpstreamMessage.java:28-57 | Writing the four properties and binding them back loses only empty values. |
| Incoming.UpstreamDataKeyDoesNotBind | src/main/java/com/learncity/backend_flexible/messaging/framework/message/model/incoming/UpstreamMessage.java:55-57 | A document with its payload under "data" does not bind, because the payload's key is "dataPayload". |
| Incoming.UpstreamMessage.FromFields | src/main/java/com/learncity/backend_flexible/messaging/framework/message/model/incoming/UpstreamMessage.java:86-87 | The no-argument constructor plus deserialisation's property writes yield exactly the given fields. |
| Incoming.UpstreamMessage.FromBuilder | src/main/java/com/learncity/backend_flexible/messaging/framework/message/model/incoming/UpstreamMessage.java:95-100 | The builder constructor copies all four fields. |
| Incoming.UpstreamMessage.SetFrom | src/main/java/com/learncity/backend_flexible/messaging/framework/message/model/incoming/UpstreamMessage.java:106-108 | Sets `from` and no other field. |
| Incoming.UpstreamMessage.SetCategory | src/main/java/com/learncity/backend_flexible/messaging/framework/message/model/incoming/UpstreamMessage.java:114-116 | Sets the category and no other field. |
| Incoming.UpstreamMessage.SetMessageId | src/main/java/com/learncity/backend_flexible/messaging/framework/message/model/incoming/UpstreamMessage.java:122-124 | Sets the message id and no other field. |
| Incoming.UpstreamMessage.SetDataPayload | src/main/java/com/learncity/backend_flexible/messaging/framework/message/model/incoming/UpstreamMessage.java:130-132 | Sets the data payload and no other field. |
| Incoming.UpstreamBuilder.NewBuilder | src/main/java/com/learncity/backend_flexible/messaging/framework/message/model/incoming/UpstreamMessage.java:144-148 | newBuilder takes message id, from and category in that order; the payload starts null. |
| Incoming.UpstreamBuilder.SetFrom | src/main/java/com/learncity/backend_flexible/messaging/framework/message/model/incoming/UpstreamMessage.java:150-153 | Sets `from` and no other builder field. |
| Incoming.UpstreamBuilder.SetMessageId | src/main/java/com/learncity/backend_flexible/messaging/framework/message/model/incoming/UpstreamMessage.java:155-158 | Sets the message id and no other builder field. |
| Incoming.UpstreamBuilder.SetRegistrationId | src/main/java/com/learncity/backend_flexible/messaging/framework/message/model/incoming/UpstreamMessage.java:160-163 | Despite its name, writes the category, and only the category. |
| Incoming.UpstreamBuilder.SetError | src/main/java/com/learncity/backend_flexible/messaging/framework/message/model/incoming/UpstreamMessage.java:165-168 | Despite its name, writes the data payload, and only the data payload. |
| Incoming.UpstreamBuilder.Build | src/main/java/com/learncity/backend_flexible/messaging/framework/message/model/incoming/UpstreamMessage.java:179-181 | The built message has exactly the builder's four fields. |
| MessageUtils.CreateJsonAck | src/main/java/com/learncity/backend_flexible/messaging/framework/message/util/MessageUtils.java:64-71 | The map has exactly the keys message_type, to and message_id: "ack", then the given values, with JSON null for null ones. |
| MessageUtils.CreateJsonAckMatchesAcknowledgement | src/main/java/com/learncity/backend_flexible/messaging/framework/message/util/MessageUtils.java:58-71 | For an acknowledgeable upstream message, createJsonAck equals the ack's document exactly when neither sender nor id is empty. |
| Outgoing.HeaderWire | src/main/java/com/learncity/backend_flexible/messaging/framework/message/model/outgoing/AbstractDownstreamMessage.java:19-133 | The header document uses only the nine wire keys; a key is present exactly when its property is written, with that property's value. |
| Outgoing.HeaderWireFields | src/main/java/com/learncity/backend_flexible/messaging/framework/message/model/outgoing/AbstractDownstreamMessage.java:19-133 | Each of the nine fields is on the wire exactly when non-null (`to`: also non-empty), under its own key, with its own value. |
| Outgoing.MessageWire | src/main/java/com/learncity/backend_flexible/messaging/framework/message/model/outgoing/DataMessage.java:15-22 | The message document is the header plus `data` exactly when the data payload is non-null and `notification` exactly when the notification map is non-null; `data` holds every entry of the payload, a null value as JSON null. |
| Outgoing.DownstreamMessage.FromBuilder | src/main/java/com/learncity/backend_flexible/messaging/framework/message/model/outgoing/AbstractDownstreamMessage.java:140-150 | The header and data payload are copied from the builder; a notification message gets the attribute map of the builder's payload. |
| Outgoing.DownstreamMessage.SetTo | src/main/java/com/learncity/backend_flexible/messaging/framework/message/model/outgoing/AbstractDownstreamMessage.java:198-200 | Sets `to` and no other field. |
| Outgoing.DownstreamMessage.SetCondition | src/main/java/com/learncity/backend_flexible/messaging/framework/message/model/outgoing/AbstractDownstreamMessage.java:206-208 | Sets the condition and no other field. |
| Outgoing.DownstreamMessage.SetMessageId | src/main/java/com/learncity/backend_flexible/messaging/framework/message/model/outgoing/AbstractDownstreamMessage.java:214-216 | Sets the message id and no other field. |
| Outgoing.DownstreamMessage.SetCollapseKey | src/main/java/com/learncity/backend_flexible/messaging/framework/message/model/outgoing/AbstractDownstreamMessage.java:222-224 | Sets the collapse key and no other field. |
| Outgoing.DownstreamMessage.SetPriority | src/main/java/com/learncity/backend_flexible/messaging/framework/message/model/outgoing/AbstractDownstreamMessage.java:230-232 | Sets the priority and no other field. |
| Outgoing.DownstreamMessage.SetContentAvailable | src/main/java/com/learncity/backend_flexible/messaging/framework/message/model/outgoing/AbstractDownstreamMessage.java:238-240 | Sets content-available and no other field. |
| Outgoing.DownstreamMessage.SetTimeToLive | src/main/java/com/learncity/backend_flexible/messaging/framework/message/model/outgoing/AbstractDownstreamMessage.java:246-248 | Sets the time to live and no other field. |
| Outgoing.DownstreamMessage.SetDeliveryReceiptRequested | src/main/java/com/learncity/backend_flexible/messaging/framework/message/model/outgoing/AbstractDownstreamMessage.java:254-256 | Sets the receipt flag and no other field. |
| Outgoing.DownstreamMessage.SetDryRun | src/main/java/com/learncity/backend_flexible/messaging/framework/message/model/outgoing/AbstractDownstreamMessage.java:262-264 | Sets dry-run and no other field. |
| Outgoing.DownstreamMessage.SetDataPayload | src/main/java/com/learncity/backend_flexible/messaging/framework/message/model/outgoing/DataMessage.java:28-30 | Sets the data payload and no other field. |
| Outgoing.DownstreamMessage.ToString | src/main/java/com/learncity/backend_flexible/messaging/framework/message/model/outgoing/AbstractDownstreamMessage.java:161-175 | A null id is replaced by a fresh one and a present id is kept; the result is the message's document, which carries that id. |
| Outgoing.ToStringIsStable | src/main/java/com/learncity/backend_flexible/messaging/framework/message/model/outgoing/AbstractDownstreamMessage.java:161-175 | Two serialisations of one message give the same document, and only the first fresh id can be used. |
| Outgoing.DownstreamMessageBuilder.NewInstance | src/main/java/com/learncity/backend_flexible/messaging/framework/message/model/outgoing/DataMessage.java:45-55 | The builder has the given `to` and payload; the id is the given one or else a fresh one, because no generator can be set before the base constructor assigns it. |
| Outgoing.DownstreamMessageBuilder.NewBuilderInstance | src/main/java/com/learncity/backend_flexible/messaging/framework/message/model/outgoing/NotificationMessage.java:50-56 | Like the two-argument data builder: `to` given, id assigned, data payload and notification payload null. |
| Outgoing.DownstreamMessageBuilder.AssignMessageId | src/main/java/com/learncity/backend_flexible/messaging/framework/message/model/outgoing/AbstractDownstreamMessage.java:344-353 | A present id is kept; a missing one comes from the generator if set, else is a fresh id. |
| Outgoing.DownstreamMessageBuilder.SetTo | src/main/java/com/learncity/backend_flexible/messaging/framework/message/model/outgoing/AbstractDownstreamMessage.java:294-297 | Sets `to` and no other builder field. |
| Outgoing.DownstreamMessageBuilder.SetMessageId | src/main/java/com/learncity/backend_flexible/messaging/framework/message/model/outgoing/AbstractDownstreamMessage.java:299-302 | Sets the message id and no other builder field. |
| Outgoing.DownstreamMessageBuilder.SetCondition | src/main/java/com/learncity/backend_flexible/messaging/framework/message/model/outgoing/AbstractDownstreamMessage.java:304-307 | Sets the condition and no other builder field. |
| Outgoing.DownstreamMessageBuilder.SetCollapseKey | src/main/java/com/learncity/backend_flexible/messaging/framework/message/model/outgoing/AbstractDownstreamMessage.java:309-312 | Sets the collapse key and no other builder field. |
| Outgoing.DownstreamMessageBuilder.SetPriority | src/main/java/com/learncity/backend_flexible/messaging/framework/message/model/outgoing/AbstractDownstreamMessage.java:314-317 | Sets the priority and no other builder field. |
| Outgoing.DownstreamMessageBuilder.SetContentAvailable | src/main/java/com/learncity/backend_flexible/messaging/framework/message/model/outgoing/AbstractDownstreamMessage.java:319-322 | Sets content-available and no other builder field. |
| Outgoing.DownstreamMessageBuilder.SetTimeToLive | src/main/java/com/learncity/backend_flexible/messaging/framework/message/model/outgoing/AbstractDownstreamMessage.java:324-327 | Sets the time to live and no other builder field. |
| Outgoing.DownstreamMessageBuilder.SetDeliveryReceiptRequested | src/main/java/com/learncity/backend_flexible/messaging/framework/message/model/outgoing/AbstractDownstreamMessage.java:329-332 | Sets the receipt flag and no other builder field. |
| Outgoing.DownstreamMessageBuilder.SetDryRun | src/main/java/com/learncity/backend_flexible/messaging/framework/message/model/outgoing/AbstractDownstreamMessage.java:334-337 | Sets dry-run and no other builder field. |
| Outgoing.DownstreamMessageBuilder.SetMessageIdGenerator | src/main/java/com/learncity/backend_flexible/messaging/framework/message/model/outgoing/AbstractDownstreamMessage.java:339-342 | Sets the generator and no other builder field. |
| Outgoing.DownstreamMessageBuilder.SetDataPayload | src/main/java/com/learncity/backend_flexible/messaging/framework/message/model/outgoing/DataMessage.java:62-65 | Sets the data payload and no other builder field. |
| Outgoing.DownstreamMessageBuilder.SetNotificationPayload | src/main/java/com/learncity/backend_flexible/messaging/framework/message/model/outgoing/NotificationMessage.java:58-61 | The field is assigned to itself, so the builder's payload stays what it was for every argument. |
| Outgoing.DownstreamMessageBuilder.Build | src/main/java/com/learncity/backend_flexible/messaging/framework/message/model/outgoing/DataMessage.java:72-74 | The built message has the builder's class, all nine header fields, its data payload and the attribute map of its notification payload. |
| Outgoing.BuiltNotificationHasNoPayload | src/main/java/com/learncity/backend_flexible/messaging/framework/message/model/outgoing/NotificationMessage.java:50-70 | A notification message built through the public builder never has a `notification` property, whatever payload is handed over; its id is the one assigned at construction. |
| Outgoing.WireWithoutNotification | src/main/java/com/learncity/backend_flexible/messaging/framework/message/model/outgoing/NotificationMessage.java:28-29 | With a null notification map the document has no `notification` key. |
| Outgoing.PayloadAttributes | src/main/java/com/learncity/backend_flexible/messaging/framework/message/util/MessageUtils.java:30-33 | The attribute map of a payload has exactly its twelve property names as keys. |
| Outgoing.PayloadAttributesFields | src/main/java/com/learncity/backend_flexible/messaging/framework/message/util/MessageUtils.java:30-33 | Each of the twelve properties holds its field's value, JSON null for a null field, with the extras nested under their own name. |
| Outgoing.NotificationPayload.FromBuilder | src/main/java/com/learncity/backend_flexible/messaging/framework/message/model/outgoing/NotificationMessage.java:297-310 | The payload constructor copies all twelve builder fields. |
| Outgoing.NotificationPayload.SetTitle | src/main/java/com/learncity/backend_flexible/messaging/framework/message/model/outgoing/NotificationMessage.java:205-207 | Sets the title and no other field. |
| Outgoing.NotificationPayload.SetBody | src/main/java/com/learncity/backend_flexible/messaging/framework/message/model/outgoing/NotificationMessage.java:213-215 | Sets the body and no other field. |
| Outgoing.NotificationPayload.SetIcon | src/main/java/com/learncity/backend_flexible/messaging/framework/message/model/outgoing/NotificationMessage.java:221-223 | Sets the icon and no other field. |
| Outgoing.NotificationPayload.SetSound | src/main/java/com/learncity/backend_flexible/messaging/framework/message/model/outgoing/NotificationMessage.java:229-231 | Sets the sound and no other field. |
| Outgoing.NotificationPayload.SetTag | src/main/java/com/learncity/backend_flexible/messaging/framework/message/model/outgoing/NotificationMessage.java:237-239 | Sets the tag and no other field. |
| Outgoing.NotificationPayload.SetColor | src/main/java/com/learncity/backend_flexible/messaging/framework/message/model/outgoing/NotificationMessage.java:245-247 | Sets the colour and no other field. |
| Outgoing.NotificationPayload.SetClickAction | src/main/java/com/learncity/backend_flexible/messaging/framework/message/model/outgoing/NotificationMessage.java:253-255 | Sets the click action and no other field. |
| Outgoing.NotificationPayload.SetBodyLocKey | src/main/java/com/learncity/backend_flexible/messaging/framework/message/model/outgoing/NotificationMessage.java:261-263 | Sets the body localisation key and no other field. |
| Outgoing.NotificationPayload.SetBodyLocArgs | src/main/java/com/learncity/backend_flexible/messaging/framework/message/model/outgoing/NotificationMessage.java:269-271 | Sets the body localisation arguments and no other field. |
| Outgoing.NotificationPayload.SetTitleLocKey | src/main/java/com/learncity/backend_flexible/messaging/framework/message/model/outgoing/NotificationMessage.java:277-279 | Sets the title localisation key and no other field. |
| Outgoing.NotificationPayload.SetTitleLocArgs | src/main/java/com/learncity/backend_flexible/messaging/framework/message/model/outgoing/NotificationMessage.java:285-287 | Sets the title localisation arguments and no other field. |
| Outgoing.NotificationPayload.SetNotificationExtras | src/main/java/com/learncity/backend_flexible/messaging/framework/message/model/outgoing/NotificationMessage.java:293-295 | Sets the extras and no other field. |
| Outgoing.NotificationPayloadBuilder.NewBuilder | src/main/java/com/learncity/backend_flexible/messaging/framework/message/model/outgoing/NotificationMessage.java:341-343 | newBuilder starts with all twelve fields null. |
| Outgoing.NotificationPayloadBuilder.SetTitle | src/main/java/com/learncity/backend_flexible/messaging/framework/message/model/outgoing/NotificationMessage.java:345-348 | Sets the title and no other builder field. |
| Outgoing.NotificationPayloadBuilder.SetBody | src/main/java/com/learncity/backend_flexible/messaging/framework/message/model/outgoing/NotificationMessage.java:350-353 | Sets the body and no other builder field. |
| Outgoing.NotificationPayloadBuilder.SetIcon | src/main/java/com/learncity/backend_flexible/messaging/framework/message/model/outgoing/NotificationMessage.java:355-358 | Sets the icon and no other builder field. |
| Outgoing.NotificationPayloadBuilder.SetSound | src/main/java/com/learncity/backend_flexible/messaging/framework/message/model/outgoing/NotificationMessage.java:360-363 | Sets the sound and no other builder field. |
| Outgoing.NotificationPayloadBuilder.SetTag | src/main/java/com/learncity/backend_flexible/messaging/framework/message/model/outgoing/NotificationMessage.java:365-368 | Sets the tag and no other builder field. |
| Outgoing.NotificationPayloadBuilder.SetColor | src/main/java/com/learncity/backend_flexible/messaging/framework/message/model/outgoing/NotificationMessage.java:370-373 | Sets the colour and no other builder field. |
| Outgoing.NotificationPayloadBuilder.SetClickAction | src/main/java/com/learncity/backend_flexible/messaging/framework/message/model/outgoing/NotificationMessage.java:375-378 | Sets the click action and no other builder field. |
| Outgoing.NotificationPayloadBuilder.SetBodyLocKey | src/main/java/com/learncity/backend_flexible/messaging/framework/message/model/outgoing/NotificationMessage.java:380-383 | Sets the body localisation key and no other builder field. |
| Outgoing.NotificationPayloadBuilder.SetBodyLocArgs | src/main/java/com/learncity/backend_flexible/messaging/framework/message/model/outgoing/NotificationMessage.java:385-388 | Sets the body localisation arguments and no other builder field. |
| Outgoing.NotificationPayloadBuilder.SetTitleLocKey | src/main/java/com/learncity/backend_flexible/messaging/framework/message/model/outgoing/NotificationMessage.java:390-393 | Sets the title localisation key and no other builder field. |
| Outgoing.NotificationPayloadBuilder.SetTitleLocArgs | src/main/java/com/learncity/backend_flexible/messaging/framework/message/model/outgoing/NotificationMessage.java:395-398 | Sets the title localisation arguments and no other builder field. |
| Outgoing.NotificationPayloadBuilder.SetNotificationExtras | src/main/java/com/learncity/backend_flexible/messaging/framework/message/model/outgoing/NotificationMessage.java:400-403 | Sets the extras and no other builder field. |
| Outgoing.NotificationPayloadBuilder.Build | src/main/java/com/learncity/backend_flexible/messaging/framework/message/model/outgoing/NotificationMessage.java:409-411 | The built payload has exactly the builder's twelve fields. |
| SourceViewers.SourceAsString | src/main/java/com/learncity/backend_flexible/messaging/framework/message/util/source_viewers/impl/FcmMessageSourceViewer.java:39-50 | No message gives null; a message without the FCM extension is a NullPointerException; otherwise the result is the extension's JSON text. |
| SourceViewers.SourceAsMap | src/main/java/com/learncity/backend_flexible/messaging/framework/message/util/source_viewers/impl/FcmMessageSourceViewer.java:52-66 | No message gives null; a failure to get the text comes first; then an unparsable text is a RuntimeException, the text `null` gives a null map and an object gives its map. |
| SourceViewers.FcmMessageSourceViewer.constructor | src/main/java/com/learncity/backend_flexible/messaging/framework/message/util/source_viewers/impl/FcmMessageSourceViewer.java:23-26 | Stores the message with both cached views empty. |
| SourceViewers.FcmMessageSourceViewer.SetSource | src/main/java/com/learncity/backend_flexible/messaging/framework/message/util/source_viewers/impl/FcmMessageSourceViewer.java:28-32 | Replaces the message and discards both cached views, so they are recomputed from the new message. |
| SourceViewers.FcmMessageSourceViewer.GetSourceAsJSONString | src/main/java/com/learncity/backend_flexible/messaging/framework/message/util/source_viewers/impl/FcmMessageSourceViewer.java:39-50 | Returns the text of the current message, cached or not; the text is extracted at most once and a cached value never changes. |
| SourceViewers.FcmMessageSourceViewer.GetSourceAsMap | src/main/java/com/learncity/backend_flexible/messaging/framework/message/util/source_viewers/impl/FcmMessageSourceViewer.java:52-66 | Returns the map of the current message, filling the text first; the map is parsed at most once and a cached value never changes. |
| SourceViewers.FcmMessageSourceViewer.ResetSources | src/main/java/com/learncity/backend_flexible/messaging/framework/message/util/source_viewers/impl/FcmMessageSourceViewer.java:68-75 | Both cached views become null. |
| Reactions.NackHook | src/main/java/com/learncity/backend_flexible/messaging/framework/message/listeners/AbstractDownstreamMessageResponseListener.java:37-77 | Each known error code runs exactly one hook of its group (unrecoverable, server failure, draining); a null or unknown code runs none. |
| Reactions.ResponseHook | src/main/java/com/learncity/backend_flexible/messaging/framework/message/listeners/AbstractDownstreamMessageResponseListener.java:19-27 | "ack" runs the ack hook; any other type takes the nack path; a null response or type is a NullPointerException; at most one hook runs. |
| Reactions.ResponseHookCarriesResponse | src/main/java/com/learncity/backend_flexible/messaging/framework/message/listeners/AbstractDownstreamMessageResponseListener.java:19-77 | The hook run for a response is the argument-less draining hook or a hook for that same response. |
| Reactions.ControlHook | src/main/java/com/learncity/backend_flexible/messaging/framework/message/listeners/AbstractDeliveryReceiptOrControlMessageListener.java:35-44 | Only CONNECTION_DRAINING runs a hook, the draining hook; a null control type is a NullPointerException. |
| Reactions.ReceiptOrControlHook | src/main/java/com/learncity/backend_flexible/messaging/framework/message/listeners/AbstractDeliveryReceiptOrControlMessageListener.java:16-24 | "receipt" runs the delivery-receipt hook; any other type takes the control path; a null message or type is a NullPointerException. |
| Reactions.UpstreamReaction | src/main/java/com/learncity/backend_flexible/messaging/framework/message/listeners/AbstractUpstreamMessageListener.java:15-31 | With the source set, processing always runs first and at most one ack follows; the ack goes out exactly when the client exists and the message can be acknowledged, and each other case has its own exception. |
| Reactions.DeferringLog | src/main/java/com/learncity/backend_flexible/messaging/callbacks/DeferringFcmMessageListener.java:18-21 | The log line fails on a null message, and on an upstream message without sender or id; every other message passes it. |
| Client.DeferredResult.SetResult | src/main/java/com/learncity/backend_flexible/messaging/callbacks/DeferringFcmMessageListener.java:22-25 | The holder keeps the first result offered and refuses later ones. |
| Client.Reaction | src/main/java/com/learncity/backend_flexible/messaging/framework/message/listeners/AbstractFcmMessageListener.java:9-21 | One listener call appends at most one hook and queues at most one task; only a deferring listener with a holder can change the held result; a deferring listener runs no hook and fails exactly as its log line does. |
| Client.FcmMessageListener.constructor | src/main/java/com/learncity/backend_flexible/messaging/framework/message/listeners/AbstractFcmMessageListener.java:11 | A new listener has no source, no hooks run and, for the deferring listener, no holder. |
| Client.FcmMessageListener.SetSource | src/main/java/com/learncity/backend_flexible/messaging/framework/message/listeners/AbstractFcmMessageListener.java:13-16 | The source becomes the given viewer, replacing any earlier one. |
| Client.FcmMessageListener.SetDeferredResultHolder | src/main/java/com/learncity/backend_flexible/messaging/callbacks/DeferringFcmMessageListener.java:28-30 | The holder slot is overwritten with the given holder. |
| Client.FcmMessageListener.OnReceiveMessage | src/main/java/com/learncity/backend_flexible/messaging/framework/message/listeners/AbstractUpstreamMessageListener.java:15-31 | The hooks, the held result, the client's task queue and the outcome after the call are given by Client.Reaction of the state before. |
| Client.FcmMessageListener.Receive | src/main/java/com/learncity/backend_flexible/messaging/framework/client/listeners/FcmStanzaListener.java:64-65 | The listener's source is set to the viewer before the message is handed over; the rest is as for OnReceiveMessage. |
| Client.FcmMessageListener.ReceiveUpstream | src/main/java/com/learncity/backend_flexible/messaging/framework/message/listeners/AbstractUpstreamMessageListener.java:15-31 | A null source fails before anything; then processing runs; then the client is fetched and the message's ack queued; each failure stops there. |
| Client.OverwrittenHolderIsNotOffered | src/main/java/com/learncity/backend_flexible/messaging/callbacks/DeferringFcmMessageListener.java:23-30 | After registering r1 and then r2, the next message is offered to r2 and r1 is left untouched; the listener's hooks and the client's tasks do not change. |
| Client.Classify | src/main/java/com/learncity/backend_flexible/messaging/framework/client/listeners/FcmStanzaListener.java:50-107 | A null or absent message_type is upstream, ack/nack a response, receipt/control a receipt or control message; a non-string is a ClassCastException and any other string a RuntimeException. |
| Client.Route | src/main/java/com/learncity/backend_flexible/messaging/framework/client/listeners/FcmStanzaListener.java:37-50 | Reading the stanza's payload fails before classification, with the viewer's exception; a payload that parses to a null map is a NullPointerException. |
| Client.RouteOfReadable | src/main/java/com/learncity/backend_flexible/messaging/framework/client/listeners/FcmStanzaListener.java:50-98 | A stanza whose payload parses to an object fails exactly when classification does; otherwise it goes to the slot of its class, bound to that class (null when it does not bind). |
| Client.RouteOfParsed | src/main/java/com/learncity/backend_flexible/messaging/framework/client/listeners/FcmStanzaListener.java:45-99 | Route of a stanza whose map is available is classification followed by binding. |
| Client.FcmStanzaListener.constructor | src/main/java/com/learncity/backend_flexible/messaging/framework/client/listeners/FcmStanzaListener.java:29-31 | All three listener slots start empty. |
| Client.FcmStanzaListener.SetDeliveryReceiptOrControlMessageListener | src/main/java/com/learncity/backend_flexible/messaging/framework/client/listeners/FcmStanzaListener.java:116-118 | Fills the receipt/control slot with the given listener. |
| Client.FcmStanzaListener.RemoveDeliveryReceiptOrControlMessageListener | src/main/java/com/learncity/backend_flexible/messaging/framework/client/listeners/FcmStanzaListener.java:120-122 | Empties the receipt/control slot whatever listener is passed. |
| Client.FcmStanzaListener.SetUpStreamMessageListener | src/main/java/com/learncity/backend_flexible/messaging/framework/client/listeners/FcmStanzaListener.java:128-130 | Fills the upstream slot with the given listener. |
| Client.FcmStanzaListener.RemoveUpStreamMessageListener | src/main/java/com/learncity/backend_flexible/messaging/framework/client/listeners/FcmStanzaListener.java:132-134 | Empties the upstream slot whatever listener is passed. |
| Client.FcmStanzaListener.SetDownstreamMessageResponseListener | src/main/java/com/learncity/backend_flexible/messaging/framework/client/listeners/FcmStanzaListener.java:140-142 | Fills the response slot with the given listener. |
| Client.FcmStanzaListener.RemoveDownstreamMessageResponseListener | src/main/java/com/learncity/backend_flexible/messaging/framework/client/listeners/FcmStanzaListener.java:144-146 | Empties the response slot whatever listener is passed. |
| Client.FcmStanzaListener.ProcessStanza | src/main/java/com/learncity/backend_flexible/messaging/framework/client/listeners/FcmStanzaListener.java:34-108 | A stanza that cannot be read or classified fails and changes nothing; one for an empty slot changes nothing; otherwise only the listener of its slot gets a fresh viewer of the stanza and then reacts as Client.Reaction says, the other listeners keep their source and hooks, and every other result holder keeps its result. |
| Client.FcmStanzaListener.ReadStanza | src/main/java/com/learncity/backend_flexible/messaging/framework/client/listeners/FcmStanzaListener.java:37-50 | A fresh viewer over the stanza yields the routed message, and no listener, holder or task changes. |
| Client.FcmStanzaListener.Dispatch | src/main/java/com/learncity/backend_flexible/messaging/framework/client/listeners/FcmStanzaListener.java:52-99 | An empty slot drops the message; otherwise only that slot's listener gets the viewer and reacts, the others keep their source and hooks, and every other result holder keeps its result. |
| Client.TaskPayload | src/main/java/com/learncity/backend_flexible/messaging/framework/client/CcsClient.java:302-307 | A null or empty string is refused with the RuntimeException; anything else is sent exactly as it is. |
| Client.EncodedTaskRuns | src/main/java/com/learncity/backend_flexible/messaging/framework/client/CcsClient.java:213-219 | A serialised message is never refused by the sending task. |
| Client.BroadcastPayloads | src/main/java/com/learncity/backend_flexible/messaging/framework/client/CcsClient.java:242-247 | A broadcast sends one stanza per recipient, and the i-th is the message addressed to the i-th recipient. |
| Client.BroadcastPayloadsAppend | src/main/java/com/learncity/backend_flexible/messaging/framework/client/CcsClient.java:243-246 | One more recipient adds exactly that recipient's stanza at the end. |
| Client.BroadcastAddressesEachRecipient | src/main/java/com/learncity/backend_flexible/messaging/framework/client/CcsClient.java:242-247 | The i-th stanza carries the i-th recipient as `to` (absent when null or empty) and the message's one message id. |
| Client.CcsClient.constructor | src/main/java/com/learncity/backend_flexible/messaging/framework/client/CcsClient.java:74-80 | Stores the credentials; the username is the sender id, "@" and the FCM endpoint; no listeners, nothing sent or queued. |
| Client.CcsClient.Connect | src/main/java/com/learncity/backend_flexible/messaging/framework/client/CcsClient.java:90-151 | No stanza listener becomes a fresh FcmStanzaListener with empty slots; an installed one gets logging defaults in exactly its empty slots; a missing connection listener becomes the logging one. |
| Client.CcsClient.Send | src/main/java/com/learncity/backend_flexible/messaging/framework/client/CcsClient.java:190-200 | The stanza is appended to what has been sent. |
| Client.CcsClient.SendMessage | src/main/java/com/learncity/backend_flexible/messaging/framework/client/CcsClient.java:205-207 | Sends the message's serialisation, after the lazy id assignment. |
| Client.CcsClient.SendAsyncMessage | src/main/java/com/learncity/backend_flexible/messaging/framework/client/CcsClient.java:213-219 | Serialises the message now (assigning its id) and queues the sending of that text. |
| Client.CcsClient.SendAsync | src/main/java/com/learncity/backend_flexible/messaging/framework/client/CcsClient.java:225-229 | Queues the sending of the string as given. |
| Client.CcsClient.RunTask | src/main/java/com/learncity/backend_flexible/messaging/framework/client/CcsClient.java:301-307 | Running a queued task removes it; a refused payload fails and sends nothing, any other is sent as it is. |
| Client.CcsClient.SendBroadcast | src/main/java/com/learncity/backend_flexible/messaging/framework/client/CcsClient.java:242-247 | Sends one stanza per recipient, in order, each addressed to its recipient and all with the same id; the message ends addressed to the last recipient. |
| Client.CcsClient.SendAddressed | src/main/java/com/learncity/backend_flexible/messaging/framework/client/CcsClient.java:244-245 | One loop round: address the message to the recipient, assign the id if missing, send the serialisation. |
| Client.CcsClient.SetFcmStanzaListener | src/main/java/com/learncity/backend_flexible/messaging/framework/client/CcsClient.java:253-255 | Installs the given stanza listener. |
| Client.CcsClient.RemoveDownstreamMessageListener | src/main/java/com/learncity/backend_flexible/messaging/framework/client/CcsClient.java:257-261 | Clears the stanza listener only when given the installed one (reference equality). |
| Client.CcsClient.SetConnectionListener | src/main/java/com/learncity/backend_flexible/messaging/framework/client/CcsClient.java:267-269 | Installs the given connection listener. |
| Client.ClientRegistry.constructor | src/main/java/com/learncity/backend_flexible/messaging/framework/client/CcsClient.java:44 | No client has been prepared. |
| Client.ClientRegistry.GetInstance | src/main/java/com/learncity/backend_flexible/messaging/framework/client/CcsClient.java:58-63 | Fails with IllegalStateException exactly while no client has been prepared; otherwise returns that client. |
| Client.ClientRegistry.PrepareClient | src/main/java/com/learncity/backend_flexible/messaging/framework/client/CcsClient.java:65-72 | The first call creates the client from its arguments; later calls return the same client and ignore theirs. |
| AppMessage.ValidateType | src/main/java/com/learncity/backend_flexible/messaging/model/Message.java:91-105 | Accepts exactly the four type codes 0x0002, 0x0004, 0x0008 and 0x0016; any other is IllegalStateException("Invalid message type."). |
| AppMessage.ValidateFrom | src/main/java/com/learncity/backend_flexible/messaging/model/Message.java:87-89 | A null sender is a NullPointerException, one that is not a UUID an IllegalArgumentException; only a UUID passes. |
| AppMessage.Selection | src/main/java/com/learncity/backend_flexible/messaging/model/Message.java:155-174 | A null type is a NullPointerException; the data code selects the data message, the other three accepted codes the notification message; any other code is IllegalStateException. |
| AppMessage.SelectionAgreesWithValidation | src/main/java/com/learncity/backend_flexible/messaging/model/Message.java:155-174 | obtainFCMMessage selects a message for exactly the codes validateInput accepts, and fails with the same exception otherwise. |
| AppMessage.Message.Empty | src/main/java/com/learncity/backend_flexible/messaging/model/Message.java:85 | The protected constructor leaves every field null. |
| AppMessage.Message.Create | src/main/java/com/learncity/backend_flexible/messaging/model/Message.java:55-65 | The type is checked before the sender and a failed check stores nothing; a created message holds the given sender, recipient and type and no sub-messages. |
| AppMessage.Message.SetFrom | src/main/java/com/learncity/backend_flexible/messaging/model/Message.java:111-114 | A valid sender is stored; a rejected one fails and leaves the field as it was. |
| AppMessage.Message.SetTo | src/main/java/com/learncity/backend_flexible/messaging/model/Message.java:120-123 | Any recipient is stored, null included. |
| AppMessage.Message.SetMessageType | src/main/java/com/learncity/backend_flexible/messaging/model/Message.java:129-132 | An accepted code is stored; any other fails and leaves the field as it was. |
| AppMessage.Message.SetDataMessage | src/main/java/com/learncity/backend_flexible/messaging/model/Message.java:138-140 | Stores the data message (which may be a notification message). |
| AppMessage.Message.SetNotificationMessage | src/main/java/com/learncity/backend_flexible/messaging/model/Message.java:146-148 | Stores the notification message. |
| AppMessage.ObtainFcmMessage | src/main/java/com/learncity/backend_flexible/messaging/model/Message.java:151-178 | Returns the sub-message the type code selects, after setting its receipt flag in place so that its wire has delivery_receipt_requested true; a null message, a null or unknown code and a null selected field are the exceptions; nothing but that flag changes. |
| AppMessage.ObtainedWireRequestsReceipt | src/main/java/com/learncity/backend_flexible/messaging/framework/message/model/outgoing/AbstractDownstreamMessage.java:121-122 | A header asking for a delivery receipt puts delivery_receipt_requested true on the wire. |

## Left out

- XMPP transport I/O. This covers the connection configuration in `CcsClient.connect`, login,
  the reconnection manager, Smack's `sendStanza`, the sending interceptor and the provider
  registration of the public no-argument `CcsClient()`. They are calls into Smack. `Send`
  records the stanza instead, and `Connect` models only the listener defaults. `Send` before
  `Connect` dereferences the still-null `connection` (CcsClient.java:194) and throws a
  NullPointerException; `Send` records the stanza whether or not `Connect` ran.
- Concurrency. The executor's threads and the `synchronized` blocks around the singleton are
  left out. An executor task is an entry in `tasks` that `RunTask` runs on request.
- Logging, including `MessageUtils.getPrettyPrintedJson` and the logging default listeners'
  messages. A logging default listener is a `HookListener` whose hooks are only recorded.
- Jackson's text format and its parser. The stanza carries what parsing its packet's text
  gives (`Parsed`, `ParsedNull` for the text `null`, or `Unparseable`), so
  `getAttributeMapFromJsonString` is the `parsed` part of `FcmPacket`. Jackson's coercion of
  numbers and booleans into `String` fields is not modelled: such a document does not bind.
- Outgoing.DownstreamMessage.ToString: does not model a null key in the data payload, for which
  Jackson fails and `toString` throws RuntimeException("There was a problem processing Json."),
  because a map key is a Dafny string. Null values in the data payload are modelled.
- UUID generation and UUID syntax. These are the `freshId` and `isUuid` parameters.
- `FcmPacketExtension` (the XML element that carries the JSON) is reduced to its JSON text.
- Client.CcsClient.RunTask: does not model the null-client check of `StanzaSendingTask`'s
  constructor, because a task is always created by a client.
- Client.CcsClient.SendBroadcast: does not model a `null` recipients list (a
  NullPointerException in Java), because recipients are a Dafny sequence.
- The setters and the no-argument constructor of `UpstreamMessage.Acknowledgement`, which
  Jackson alone uses. The acknowledgement is a value.
- `AbstractDownstreamMessage.toAttributeMap`, which goes through Jackson's object-to-map
  conversion, and `Message.toString`, which is Jackson output. `Wire()` and `PayloadAttributes`
  are the documents Jackson produces.
- The getters of every class. They are functions with `reads` clauses and carry no contract of
  their own.
- The listeners are handed value snapshots (`ResponseFields`, `ReceiptFields`,
  `UpstreamFields`) of the deserialised objects rather than the objects themselves. No listener
  in the core mutates the message it is handed.
- `DeferredResult` is modelled as a cell that accepts its first result; the Spring MVC side of
  it is left out.
- `MessagingController` and the application configuration are not part of this model.
- The code has no connection-state machine and no draining behaviour beyond the
  `handleConnectionDrainingFailure` hook, whose call the model records.
- Client.FcmStanzaListener.ProcessStanza: "nothing else changes" is stated per listener slot
  (its source and hooks), per holder and for the client's task queue, through the `State` and
  `Kept` functions and the `modifies` clause, rather than as one equation over the heap. Every
  holder but the one of the listener the stanza is dispatched to keeps its result.
