/**
 * Downstream (server to device) messages: AbstractDownstreamMessage and its
 * concrete subclasses DataMessage and NotificationMessage, their builders,
 * and the NotificationPayload POJO with its builder.
 *
 * Java's subclassing is modelled by one class tagged with a `kind`: every
 * downstream message has the nine header fields of AbstractDownstreamMessage
 * and the data payload of DataMessage; only a NotificationMessage carries a
 * notification attribute map.
 */
module Outgoing {
  import opened Common
  import opened Json

  // ---- wire keys (the @JsonProperty names) ----

  const ToKey := "to"
  const ConditionKey := "condition"
  const MessageIdKey := "message_id"
  const CollapseKeyKey := "collapse_key"
  const PriorityKey := "priority"
  const ContentAvailableKey := "content_available"
  const TimeToLiveKey := "time_to_live"
  const DeliveryReceiptRequestedKey := "delivery_receipt_requested"
  const DryRunKey := "dry_run"
  const DataKey := "data"
  const NotificationKey := "notification"

  const HeaderKeys: set<string> :=
    {ToKey, ConditionKey, MessageIdKey, CollapseKeyKey, PriorityKey,
     ContentAvailableKey, TimeToLiveKey, DeliveryReceiptRequestedKey, DryRunKey}

  /** The concrete class of a downstream message (or of its builder). */
  datatype Kind = DataMessageKind | NotificationMessageKind

  /** The nine fields every downstream message and builder holds. */
  datatype Header = Header(
    to: Option<string>,
    condition: Option<string>,
    messageId: Option<string>,
    collapseKey: Option<string>,
    priority: Option<string>,
    contentAvailable: Option<bool>,
    timeToLive: Option<Int32>,
    deliveryReceiptRequested: Option<bool>,
    dryRun: Option<bool>)

  /**
   * The value Jackson writes under `key` for a header, if any: the class is
   * NON_NULL and `to` is additionally NON_EMPTY.
   */
  function HeaderProperty(h: Header, key: string): Option<JsonValue>
  {
    if key == ToKey then NonEmpty(h.to)
    else if key == ConditionKey then NonNull(h.condition)
    else if key == MessageIdKey then NonNull(h.messageId)
    else if key == CollapseKeyKey then NonNull(h.collapseKey)
    else if key == PriorityKey then NonNull(h.priority)
    else if key == ContentAvailableKey then NonNullBool(h.contentAvailable)
    else if key == TimeToLiveKey then NonNullInt(h.timeToLive)
    else if key == DeliveryReceiptRequestedKey then NonNullBool(h.deliveryReceiptRequested)
    else if key == DryRunKey then NonNullBool(h.dryRun)
    else None
  }

  /** The properties Jackson writes for the header. */
  function HeaderWire(h: Header): (w: JsonObject)
    ensures w.Keys <= HeaderKeys
    ensures forall k :: k in w <==> HeaderProperty(h, k).Some?
    ensures forall k | k in w :: w[k] == HeaderProperty(h, k).value
  {
    map k | k in HeaderKeys && HeaderProperty(h, k).Some? :: HeaderProperty(h, k).value
  }

  /**
   * Every header field appears on the wire exactly when it is non-null
   * (`to`: non-null and non-empty), under its own key and with its own value.
   */
  lemma HeaderWireFields(h: Header)
    ensures var w := HeaderWire(h);
      && (ToKey in w <==> h.to.Some? && h.to.value != "")
      && (ConditionKey in w <==> h.condition.Some?)
      && (MessageIdKey in w <==> h.messageId.Some?)
      && (CollapseKeyKey in w <==> h.collapseKey.Some?)
      && (PriorityKey in w <==> h.priority.Some?)
      && (ContentAvailableKey in w <==> h.contentAvailable.Some?)
      && (TimeToLiveKey in w <==> h.timeToLive.Some?)
      && (DeliveryReceiptRequestedKey in w <==> h.deliveryReceiptRequested.Some?)
      && (DryRunKey in w <==> h.dryRun.Some?)
      && (ToKey in w ==> w[ToKey] == JString(h.to.value))
      && (ConditionKey in w ==> w[ConditionKey] == JString(h.condition.value))
      && (MessageIdKey in w ==> w[MessageIdKey] == JString(h.messageId.value))
      && (CollapseKeyKey in w ==> w[CollapseKeyKey] == JString(h.collapseKey.value))
      && (PriorityKey in w ==> w[PriorityKey] == JString(h.priority.value))
      && (ContentAvailableKey in w ==> w[ContentAvailableKey] == JBool(h.contentAvailable.value))
      && (TimeToLiveKey in w ==> w[TimeToLiveKey] == JNumber(h.timeToLive.value as int))
      && (DeliveryReceiptRequestedKey in w ==>
            w[DeliveryReceiptRequestedKey] == JBool(h.deliveryReceiptRequested.value))
      && (DryRunKey in w ==> w[DryRunKey] == JBool(h.dryRun.value))
  {
  }

  /**
   * The document a downstream message serialises to: the header, then `data`
   * when the data payload is non-null and `notification` when the
   * notification attribute map is non-null (both classes are NON_NULL).
   * Every entry of the data map is written, a null value as JSON null.
   */
  function MessageWire(h: Header, data: Option<NullableStringMap>, notification: Option<JsonObject>)
    : (w: JsonObject)
    ensures w.Keys == HeaderWire(h).Keys
                      + (if data.Some? then {DataKey} else {})
                      + (if notification.Some? then {NotificationKey} else {})
    ensures forall k | k in HeaderWire(h) :: w[k] == HeaderWire(h)[k]
    ensures data.Some? ==> w[DataKey].JObject? && w[DataKey].fields.Keys == data.value.Keys
    ensures data.Some? ==> forall k | k in data.value :: w[DataKey].fields[k] == Nullable(data.value[k])
    ensures notification.Some? ==> w[NotificationKey] == JObject(notification.value)
  {
    HeaderWire(h)
    + Entry(DataKey, NonNullStringMap(data))
    + Entry(NotificationKey, NonNullObject(notification))
  }

  /** The id a message carries once an id has been assigned to it. */
  function AssignedId(given: Option<string>, freshId: string): string
  {
    if given.Some? then given.value else freshId
  }

  /** A message-id generator, represented by the id its next call returns. */
  datatype IdGenerator = IdGenerator(nextId: string)

  /** A built DataMessage or NotificationMessage. */
  class DownstreamMessage {
    const kind: Kind
    var to: Option<string>
    var condition: Option<string>
    var messageId: Option<string>
    var collapseKey: Option<string>
    var priority: Option<string>
    var contentAvailable: Option<bool>
    var timeToLive: Option<Int32>
    var deliveryReceiptRequested: Option<bool>
    var dryRun: Option<bool>
    var dataPayload: Option<NullableStringMap>
    /** Only a NotificationMessage has this field. */
    var notificationPayload: Option<JsonObject>

    ghost predicate Valid()
      reads this`notificationPayload
    {
      kind == DataMessageKind ==> notificationPayload.None?
    }

    function Snapshot(): Header
      reads this
    {
      Header(to, condition, messageId, collapseKey, priority, contentAvailable,
             timeToLive, deliveryReceiptRequested, dryRun)
    }

    /** The document this message serialises to in its current state. */
    function Wire(): JsonObject
      reads this
    {
      MessageWire(Snapshot(), dataPayload, notificationPayload)
    }

    /**
     * The builder constructors of all three classes: the header and the data
     * payload are copied, and a NotificationMessage converts the builder's
     * payload POJO to an attribute map.
     */
    constructor FromBuilder(b: DownstreamMessageBuilder)
      requires b.Valid()
      ensures Valid() && kind == b.kind
      ensures Snapshot() == b.Snapshot()
      ensures dataPayload == b.dataPayload
      ensures notificationPayload == b.NotificationAttributes()
    {
      kind := b.kind;
      to := b.to;
      condition := b.condition;
      messageId := b.messageId;
      collapseKey := b.collapseKey;
      priority := b.priority;
      contentAvailable := b.contentAvailable;
      timeToLive := b.timeToLive;
      deliveryReceiptRequested := b.deliveryReceiptRequested;
      dryRun := b.dryRun;
      dataPayload := b.dataPayload;
      notificationPayload := b.NotificationAttributes();
    }

    method SetTo(to: Option<string>)
      modifies this`to
      ensures this.to == to
    {
      this.to := to;
    }

    method SetCondition(condition: Option<string>)
      modifies this`condition
      ensures this.condition == condition
    {
      this.condition := condition;
    }

    method SetMessageId(messageId: Option<string>)
      modifies this`messageId
      ensures this.messageId == messageId
    {
      this.messageId := messageId;
    }

    method SetCollapseKey(collapseKey: Option<string>)
      modifies this`collapseKey
      ensures this.collapseKey == collapseKey
    {
      this.collapseKey := collapseKey;
    }

    method SetPriority(priority: Option<string>)
      modifies this`priority
      ensures this.priority == priority
    {
      this.priority := priority;
    }

    method SetContentAvailable(contentAvailable: Option<bool>)
      modifies this`contentAvailable
      ensures this.contentAvailable == contentAvailable
    {
      this.contentAvailable := contentAvailable;
    }

    method SetTimeToLive(timeToLive: Option<Int32>)
      modifies this`timeToLive
      ensures this.timeToLive == timeToLive
    {
      this.timeToLive := timeToLive;
    }

    method SetDeliveryReceiptRequested(deliveryReceiptRequested: Option<bool>)
      modifies this`deliveryReceiptRequested
      ensures this.deliveryReceiptRequested == deliveryReceiptRequested
    {
      this.deliveryReceiptRequested := deliveryReceiptRequested;
    }

    method SetDryRun(dryRun: Option<bool>)
      modifies this`dryRun
      ensures this.dryRun == dryRun
    {
      this.dryRun := dryRun;
    }

    /** DataMessage's setter, inherited by NotificationMessage. */
    method SetDataPayload(dataPayload: Option<NullableStringMap>)
      modifies this`dataPayload
      ensures this.dataPayload == dataPayload
    {
      this.dataPayload := dataPayload;
    }

    /**
     * toString: a message without an id is first given a fresh one, then the
     * message is serialised. Once an id is present it is never replaced.
     */
    method ToString(freshId: string) returns (w: JsonObject)
      modifies this`messageId
      ensures messageId == Some(AssignedId(old(messageId), freshId))
      ensures old(messageId).Some? ==> messageId == old(messageId)
      ensures w == Wire()
      ensures MessageIdKey in w && w[MessageIdKey] == JString(messageId.value)
    {
      if messageId.None? {
        messageId := Some(freshId);
      }
      w := Wire();
    }
  }

  /**
   * Serialising the same message twice gives the same document: only the
   * first call can assign an id, so the second call's fresh id is unused.
   */
  method ToStringIsStable(m: DownstreamMessage, freshId1: string, freshId2: string)
    returns (w1: JsonObject, w2: JsonObject)
    modifies m`messageId
    ensures w1 == w2
    ensures m.messageId == Some(AssignedId(old(m.messageId), freshId1))
  {
    w1 := m.ToString(freshId1);
    w2 := m.ToString(freshId2);
  }

  /**
   * The builders of DataMessage and NotificationMessage (both extend the
   * builder of AbstractDownstreamMessage).
   */
  class DownstreamMessageBuilder {
    const kind: Kind
    var to: Option<string>
    var messageId: Option<string>
    var condition: Option<string>
    var collapseKey: Option<string>
    var priority: Option<string>
    var contentAvailable: Option<bool>
    var timeToLive: Option<Int32>
    var deliveryReceiptRequested: Option<bool>
    var dryRun: Option<bool>
    var messageIdGenerator: Option<IdGenerator>
    var dataPayload: Option<NullableStringMap>
    /** Only NotificationMessage's builder has this field. */
    var notificationPayload: NotificationPayload?

    ghost predicate Valid()
      reads this`notificationPayload
    {
      kind == DataMessageKind ==> notificationPayload == null
    }

    function Snapshot(): Header
      reads this
    {
      Header(to, condition, messageId, collapseKey, priority, contentAvailable,
             timeToLive, deliveryReceiptRequested, dryRun)
    }

    /** MessageUtils.toAttributeMap of the payload POJO; null stays null. */
    function NotificationAttributes(): Option<JsonObject>
      reads this, notificationPayload
    {
      if notificationPayload == null then None else Some(notificationPayload.Attributes())
    }

    /**
     * DataMessage.Builder.newInstance(to, messageId, dataPayload): the base
     * constructor stores `to` and `messageId` and assigns an id at once, while
     * no generator can have been set yet; the data payload is stored after.
     */
    constructor NewInstance(to: Option<string>, messageId: Option<string>,
                            dataPayload: Option<NullableStringMap>, freshId: string)
      ensures Valid() && kind == DataMessageKind
      ensures Snapshot() == Header(to, None, Some(AssignedId(messageId, freshId)),
                                   None, None, None, None, None, None)
      ensures messageIdGenerator.None?
      ensures this.dataPayload == dataPayload
      ensures notificationPayload == null
    {
      kind := DataMessageKind;
      this.to := to;
      this.messageId := messageId;
      condition := None;
      collapseKey := None;
      priority := None;
      contentAvailable := None;
      timeToLive := None;
      deliveryReceiptRequested := None;
      dryRun := None;
      messageIdGenerator := None;
      this.dataPayload := None;
      notificationPayload := null;
      new;
      AssignMessageId(freshId);
      this.dataPayload := dataPayload;
    }

    /**
     * NotificationMessage.Builder.newBuilderInstance(to, messageId): goes
     * through DataMessage's two-argument builder constructor, which leaves the
     * data payload null.
     */
    constructor NewBuilderInstance(to: Option<string>, messageId: Option<string>, freshId: string)
      ensures Valid() && kind == NotificationMessageKind
      ensures Snapshot() == Header(to, None, Some(AssignedId(messageId, freshId)),
                                   None, None, None, None, None, None)
      ensures messageIdGenerator.None?
      ensures dataPayload.None?
      ensures notificationPayload == null
    {
      kind := NotificationMessageKind;
      this.to := to;
      this.messageId := messageId;
      condition := None;
      collapseKey := None;
      priority := None;
      contentAvailable := None;
      timeToLive := None;
      deliveryReceiptRequested := None;
      dryRun := None;
      messageIdGenerator := None;
      dataPayload := None;
      notificationPayload := null;
      new;
      AssignMessageId(freshId);
    }

    /** assignMessageId: a missing id comes from the generator if one is set, otherwise a fresh UUID. */
    method AssignMessageId(freshId: string)
      modifies this`messageId
      ensures old(messageId).Some? ==> messageId == old(messageId)
      ensures old(messageId).None? && messageIdGenerator.Some? ==>
                messageId == Some(messageIdGenerator.value.nextId)
      ensures old(messageId).None? && messageIdGenerator.None? ==> messageId == Some(freshId)
    {
      if messageId.None? {
        if messageIdGenerator.Some? {
          messageId := Some(messageIdGenerator.value.nextId);
        } else {
          messageId := Some(freshId);
        }
      }
    }

    method SetTo(to: Option<string>)
      modifies this`to
      ensures this.to == to
    {
      this.to := to;
    }

    method SetMessageId(messageId: Option<string>)
      modifies this`messageId
      ensures this.messageId == messageId
    {
      this.messageId := messageId;
    }

    method SetCondition(condition: Option<string>)
      modifies this`condition
      ensures this.condition == condition
    {
      this.condition := condition;
    }

    method SetCollapseKey(collapseKey: Option<string>)
      modifies this`collapseKey
      ensures this.collapseKey == collapseKey
    {
      this.collapseKey := collapseKey;
    }

    method SetPriority(priority: Option<string>)
      modifies this`priority
      ensures this.priority == priority
    {
      this.priority := priority;
    }

    method SetContentAvailable(contentAvailable: Option<bool>)
      modifies this`contentAvailable
      ensures this.contentAvailable == contentAvailable
    {
      this.contentAvailable := contentAvailable;
    }

    method SetTimeToLive(timeToLive: Option<Int32>)
      modifies this`timeToLive
      ensures this.timeToLive == timeToLive
    {
      this.timeToLive := timeToLive;
    }

    method SetDeliveryReceiptRequested(deliveryReceiptRequested: Option<bool>)
      modifies this`deliveryReceiptRequested
      ensures this.deliveryReceiptRequested == deliveryReceiptRequested
    {
      this.deliveryReceiptRequested := deliveryReceiptRequested;
    }

    method SetDryRun(dryRun: Option<bool>)
      modifies this`dryRun
      ensures this.dryRun == dryRun
    {
      this.dryRun := dryRun;
    }

    /** Only consulted by assignMessageId, which runs inside the constructor. */
    method SetMessageIdGenerator(messageIdGenerator: Option<IdGenerator>)
      modifies this`messageIdGenerator
      ensures this.messageIdGenerator == messageIdGenerator
    {
      this.messageIdGenerator := messageIdGenerator;
    }

    method SetDataPayload(dataPayload: Option<NullableStringMap>)
      modifies this`dataPayload
      ensures this.dataPayload == dataPayload
    {
      this.dataPayload := dataPayload;
    }

    /** The setter assigns the field to itself, so its argument is discarded. */
    method SetNotificationPayload(notificationPayload: NotificationPayload?)
      requires kind == NotificationMessageKind
      modifies this`notificationPayload
      ensures this.notificationPayload == old(this.notificationPayload)
    {
      this.notificationPayload := this.notificationPayload;
    }

    method Build() returns (m: DownstreamMessage)
      requires Valid()
      ensures fresh(m) && m.Valid() && m.kind == kind
      ensures m.Snapshot() == Snapshot()
      ensures m.dataPayload == dataPayload
      ensures m.notificationPayload == NotificationAttributes()
    {
      m := new DownstreamMessage.FromBuilder(this);
    }
  }

  /**
   * A notification message built through the public builder API never
   * carries a `notification` property, whatever payload is handed to the
   * builder: the builder's payload is null when constructed and its setter
   * keeps it null.
   */
  method BuiltNotificationHasNoPayload(to: Option<string>, messageId: Option<string>,
                                       payload: NotificationPayload?, freshId: string)
    returns (w: JsonObject)
    ensures NotificationKey !in w
    ensures MessageIdKey in w && w[MessageIdKey] == JString(AssignedId(messageId, freshId))
  {
    var b := new DownstreamMessageBuilder.NewBuilderInstance(to, messageId, freshId);
    b.SetNotificationPayload(payload);
    var m := b.Build();
    w := m.ToString(freshId);
    WireWithoutNotification(m.Snapshot(), m.dataPayload);
  }

  /** Without a notification payload the wire has no `notification` property. */
  lemma WireWithoutNotification(h: Header, data: Option<NullableStringMap>)
    ensures NotificationKey !in MessageWire(h, data, None)
  {
    assert NotificationKey !in HeaderKeys;
  }

  // ---- NotificationPayload ----

  /** The twelve fields of a NotificationPayload (and of its builder). */
  datatype PayloadFields = PayloadFields(
    title: Option<string>,
    body: Option<string>,
    icon: Option<string>,
    sound: Option<string>,
    tag: Option<string>,
    color: Option<string>,
    clickAction: Option<string>,
    bodyLocKey: Option<string>,
    bodyLocArgs: Option<string>,
    titleLocKey: Option<string>,
    titleLocArgs: Option<string>,
    notificationExtras: Option<JsonObject>)

  const PayloadKeys: set<string> :=
    {"title", "body", "icon", "sound", "tag", "color", "click_action", "body_loc_key",
     "body_loc_args", "title_loc_key", "title_loc_args", "notificationExtras"}

  /**
   * The value Jackson's conversion of the POJO to an attribute map puts under
   * `key`: the class has no inclusion annotation, so every getter is written
   * and a null field becomes JSON null; the extras map is nested under its own
   * property name.
   */
  function PayloadProperty(p: PayloadFields, key: string): JsonValue
  {
    if key == "title" then Nullable(p.title)
    else if key == "body" then Nullable(p.body)
    else if key == "icon" then Nullable(p.icon)
    else if key == "sound" then Nullable(p.sound)
    else if key == "tag" then Nullable(p.tag)
    else if key == "color" then Nullable(p.color)
    else if key == "click_action" then Nullable(p.clickAction)
    else if key == "body_loc_key" then Nullable(p.bodyLocKey)
    else if key == "body_loc_args" then Nullable(p.bodyLocArgs)
    else if key == "title_loc_key" then Nullable(p.titleLocKey)
    else if key == "title_loc_args" then Nullable(p.titleLocArgs)
    else if p.notificationExtras.Some? then JObject(p.notificationExtras.value)
    else JNull
  }

  /** MessageUtils.toAttributeMap of a NotificationPayload. */
  function PayloadAttributes(p: PayloadFields): (a: JsonObject)
    ensures a.Keys == PayloadKeys
  {
    map k | k in PayloadKeys :: PayloadProperty(p, k)
  }

  /**
   * The attribute map has all twelve properties, each holding its field's
   * value, with JSON null for a null field.
   */
  lemma PayloadAttributesFields(p: PayloadFields)
    ensures var a := PayloadAttributes(p);
      && a.Keys == PayloadKeys
      && a["title"] == Nullable(p.title)
      && a["body"] == Nullable(p.body)
      && a["icon"] == Nullable(p.icon)
      && a["sound"] == Nullable(p.sound)
      && a["tag"] == Nullable(p.tag)
      && a["color"] == Nullable(p.color)
      && a["click_action"] == Nullable(p.clickAction)
      && a["body_loc_key"] == Nullable(p.bodyLocKey)
      && a["body_loc_args"] == Nullable(p.bodyLocArgs)
      && a["title_loc_key"] == Nullable(p.titleLocKey)
      && a["title_loc_args"] == Nullable(p.titleLocArgs)
      && a["notificationExtras"] ==
           (if p.notificationExtras.Some? then JObject(p.notificationExtras.value) else JNull)
  {
  }

  class NotificationPayload {
    var title: Option<string>
    var body: Option<string>
    var icon: Option<string>
    var sound: Option<string>
    var tag: Option<string>
    var color: Option<string>
    var clickAction: Option<string>
    var bodyLocKey: Option<string>
    var bodyLocArgs: Option<string>
    var titleLocKey: Option<string>
    var titleLocArgs: Option<string>
    var notificationExtras: Option<JsonObject>

    function Fields(): PayloadFields
      reads this
    {
      PayloadFields(title, body, icon, sound, tag, color, clickAction, bodyLocKey,
                    bodyLocArgs, titleLocKey, titleLocArgs, notificationExtras)
    }

    /** MessageUtils.toAttributeMap(this). */
    function Attributes(): JsonObject
      reads this
    {
      PayloadAttributes(Fields())
    }

    /** The builder constructor copies all twelve fields. */
    constructor FromBuilder(b: NotificationPayloadBuilder)
      ensures Fields() == b.Fields()
    {
      notificationExtras := b.notificationExtras;
      title := b.title;
      body := b.body;
      color := b.color;
      tag := b.tag;
      sound := b.sound;
      icon := b.icon;
      bodyLocArgs := b.bodyLocArgs;
      bodyLocKey := b.bodyLocKey;
      clickAction := b.clickAction;
      titleLocArgs := b.titleLocArgs;
      titleLocKey := b.titleLocKey;
    }

    method SetTitle(title: Option<string>)
      modifies this`title
      ensures this.title == title
    {
      this.title := title;
    }

    method SetBody(body: Option<string>)
      modifies this`body
      ensures this.body == body
    {
      this.body := body;
    }

    method SetIcon(icon: Option<string>)
      modifies this`icon
      ensures this.icon == icon
    {
      this.icon := icon;
    }

    method SetSound(sound: Option<string>)
      modifies this`sound
      ensures this.sound == sound
    {
      this.sound := sound;
    }

    method SetTag(tag: Option<string>)
      modifies this`tag
      ensures this.tag == tag
    {
      this.tag := tag;
    }

    method SetColor(color: Option<string>)
      modifies this`color
      ensures this.color == color
    {
      this.color := color;
    }

    method SetClickAction(clickAction: Option<string>)
      modifies this`clickAction
      ensures this.clickAction == clickAction
    {
      this.clickAction := clickAction;
    }

    method SetBodyLocKey(bodyLocKey: Option<string>)
      modifies this`bodyLocKey
      ensures this.bodyLocKey == bodyLocKey
    {
      this.bodyLocKey := bodyLocKey;
    }

    method SetBodyLocArgs(bodyLocArgs: Option<string>)
      modifies this`bodyLocArgs
      ensures this.bodyLocArgs == bodyLocArgs
    {
      this.bodyLocArgs := bodyLocArgs;
    }

    method SetTitleLocKey(titleLocKey: Option<string>)
      modifies this`titleLocKey
      ensures this.titleLocKey == titleLocKey
    {
      this.titleLocKey := titleLocKey;
    }

    method SetTitleLocArgs(titleLocArgs: Option<string>)
      modifies this`titleLocArgs
      ensures this.titleLocArgs == titleLocArgs
    {
      this.titleLocArgs := titleLocArgs;
    }

    method SetNotificationExtras(notificationExtras: Option<JsonObject>)
      modifies this`notificationExtras
      ensures this.notificationExtras == notificationExtras
    {
      this.notificationExtras := notificationExtras;
    }
  }

  class NotificationPayloadBuilder {
    var title: Option<string>
    var body: Option<string>
    var icon: Option<string>
    var sound: Option<string>
    var tag: Option<string>
    var color: Option<string>
    var clickAction: Option<string>
    var bodyLocKey: Option<string>
    var bodyLocArgs: Option<string>
    var titleLocKey: Option<string>
    var titleLocArgs: Option<string>
    var notificationExtras: Option<JsonObject>

    function Fields(): PayloadFields
      reads this
    {
      PayloadFields(title, body, icon, sound, tag, color, clickAction, bodyLocKey,
                    bodyLocArgs, titleLocKey, titleLocArgs, notificationExtras)
    }

    /** newBuilder(): every field starts null. */
    constructor NewBuilder()
      ensures Fields() == PayloadFields(None, None, None, None, None, None, None, None, None, None, None, None)
    {
      title := None;
      body := None;
      icon := None;
      sound := None;
      tag := None;
      color := None;
      clickAction := None;
      bodyLocKey := None;
      bodyLocArgs := None;
      titleLocKey := None;
      titleLocArgs := None;
      notificationExtras := None;
    }

    method SetTitle(title: Option<string>)
      modifies this`title
      ensures this.title == title
    {
      this.title := title;
    }

    method SetBody(body: Option<string>)
      modifies this`body
      ensures this.body == body
    {
      this.body := body;
    }

    method SetIcon(icon: Option<string>)
      modifies this`icon
      ensures this.icon == icon
    {
      this.icon := icon;
    }

    method SetSound(sound: Option<string>)
      modifies this`sound
      ensures this.sound == sound
    {
      this.sound := sound;
    }

    method SetTag(tag: Option<string>)
      modifies this`tag
      ensures this.tag == tag
    {
      this.tag := tag;
    }

    method SetColor(color: Option<string>)
      modifies this`color
      ensures this.color == color
    {
      this.color := color;
    }

    method SetClickAction(clickAction: Option<string>)
      modifies this`clickAction
      ensures this.clickAction == clickAction
    {
      this.clickAction := clickAction;
    }

    method SetBodyLocKey(bodyLocKey: Option<string>)
      modifies this`bodyLocKey
      ensures this.bodyLocKey == bodyLocKey
    {
      this.bodyLocKey := bodyLocKey;
    }

    method SetBodyLocArgs(bodyLocArgs: Option<string>)
      modifies this`bodyLocArgs
      ensures this.bodyLocArgs == bodyLocArgs
    {
      this.bodyLocArgs := bodyLocArgs;
    }

    method SetTitleLocKey(titleLocKey: Option<string>)
      modifies this`titleLocKey
      ensures this.titleLocKey == titleLocKey
    {
      this.titleLocKey := titleLocKey;
    }

    method SetTitleLocArgs(titleLocArgs: Option<string>)
      modifies this`titleLocArgs
      ensures this.titleLocArgs == titleLocArgs
    {
      this.titleLocArgs := titleLocArgs;
    }

    method SetNotificationExtras(notificationExtras: Option<JsonObject>)
      modifies this`notificationExtras
      ensures this.notificationExtras == notificationExtras
    {
      this.notificationExtras := notificationExtras;
    }

    method Build() returns (p: NotificationPayload)
      ensures fresh(p) && p.Fields() == Fields()
    {
      p := new NotificationPayload.FromBuilder(this);
    }
  }
}
