/**
 * The client side of the bridge: the message listeners the stanza listener
 * dispatches to, FcmStanzaListener itself, CcsClient with what it has sent
 * and what it has queued for sending, and the static slot that holds the
 * client singleton.  They share one module because the upstream listener
 * calls back into the client singleton to send its acknowledgement.
 *
 * Sending over the XMPP connection is appending to `CcsClient.sent`; a
 * task submitted to the executor is an entry of `CcsClient.tasks`, and
 * running one (in any order) is `CcsClient.RunTask`.
 */
module Client {
  import opened Common
  import opened Json
  import opened Outgoing
  import opened Incoming
  import opened SourceViewers
  import opened Reactions

  /**
   * The JSON text of an outgoing stanza: the serialisation of a document,
   * or a string handed to sendAsync(String) as it is.
   */
  datatype Payload = Encoded(doc: JsonObject) | Text(text: string)

  const FcmServerConnectionEndpoint := "gcm.googleapis.com"
  const EmptyTaskMessage := "Message to be sent cannot be null or empty."
  const UnknownTypeMessage := "Unknown Message type received from Ccs."
  const MessageTypeKey := "message_type"
  const NackType := "nack"

  function ClientSet(c: CcsClient?): set<CcsClient>
  {
    if c != null then {c} else {}
  }

  function HolderSet(d: DeferredResult?): set<DeferredResult>
  {
    if d != null then {d} else {}
  }

  function HolderOf(l: FcmMessageListener?): set<DeferredResult>
    reads l
  {
    if l == null || l.deferredResult == null then {} else {l.deferredResult}
  }

  datatype SlotState = SlotState(source: FcmMessageSourceViewer?, hooks: seq<Hook>, held: Option<Inbound>)

  function SlotStateOf(l: FcmMessageListener?): Option<SlotState>
    reads l, HolderOf(l)
  {
    if l == null then None else Some(SlotState(l.source, l.hooks, Held(l.deferredResult)))
  }

  /** Listener s, if it is not l, has the source and hooks it had. */
  twostate predicate Kept(s: FcmMessageListener?, l: FcmMessageListener)
    reads s
  {
    s == null || s == l || (s.source == old(s.source) && s.hooks == old(s.hooks))
  }

  function ListenerSet(l: FcmMessageListener?): set<FcmMessageListener>
  {
    if l != null then {l} else {}
  }

  /** The result held by a (possibly null) holder. */
  function Held(d: DeferredResult?): Option<Inbound>
    reads d
  {
    if d != null then d.result else None
  }

  /** The queued tasks of a (possibly null) client. */
  function TasksOf(c: CcsClient?): seq<Option<Payload>>
    reads c
  {
    if c != null then c.tasks else []
  }

  /** Spring's DeferredResult, as a cell that can be set once. */
  class DeferredResult {
    var result: Option<Inbound>

    constructor ()
      ensures result.None?
    {
      result := None;
    }

    /** The first result offered is kept; later offers are refused. */
    method SetResult(v: Inbound) returns (accepted: bool)
      modifies this
      ensures accepted <==> old(result).None?
      ensures result == if accepted then Some(v) else old(result)
    {
      accepted := result.None?;
      if accepted {
        result := Some(v);
      }
    }
  }

  /** What one listener call can change: its hooks, its holder's result, the client's queue. */
  datatype Observed = Observed(hooks: seq<Hook>, held: Option<Inbound>, tasks: seq<Option<Payload>>)

  /**
   * onReceiveMessage of a listener of the given class, as a function of
   * whether its source is set, whether it has a result holder, whether the
   * client singleton exists, the message, and what was observed before:
   * what is observed after, and the outcome.  The category listeners run
   * the hooks chosen in module Reactions (the upstream listener also queues
   * the acknowledgement); the deferring listener offers a message that
   * survives its log line to its holder, which keeps the first one.
   */
  function Reaction(kind: ListenerKind, sourceSet: bool, hasHolder: bool, clientPrepared: bool,
                    m: Inbound, before: Observed): (after: (Observed, Outcome))
    ensures before.hooks <= after.0.hooks && |after.0.hooks| <= |before.hooks| + 1
    ensures before.tasks <= after.0.tasks && |after.0.tasks| <= |before.tasks| + 1
    ensures after.0.held != before.held ==>
              kind == DeferringListener && hasHolder && before.held.None? && after.0.held == Some(m)
    ensures after.0.tasks != before.tasks ==>
              kind == HookListener && m.UpstreamIn? && clientPrepared && after.1.Pass?
    ensures kind == DeferringListener ==> after.0.hooks == before.hooks && after.1 == DeferringLog(m)
    ensures kind == HookListener ==> after.0.held == before.held
    ensures IsNull(m) && !(kind == HookListener && m.UpstreamIn?) ==> after.1 == Fail(NullPointer)
  {
    match kind
    case DeferringListener =>
      var r := DeferringLog(m);
      (before.(held := if r.Pass? && hasHolder && before.held.None? then Some(m) else before.held), r)
    case HookListener =>
      match m
      case ResponseIn(resp) =>
        var h := ResponseHook(resp);
        if h.Err? then (before, Fail(h.error))
        else (before.(hooks := before.hooks + HookList(h.value)), Pass)
      case ReceiptOrControlIn(c) =>
        var h := ReceiptOrControlHook(c);
        if h.Err? then (before, Fail(h.error))
        else (before.(hooks := before.hooks + HookList(h.value)), Pass)
      case UpstreamIn(u) =>
        var s := UpstreamReaction(sourceSet, clientPrepared, u);
        (before.(hooks := before.hooks + (if |s.effects| >= 1 then [ProcessUpstreamMessage(u)] else []),
                 tasks := before.tasks
                          + (if |s.effects| == 2 then [Some(Encoded(AckWire(s.effects[1].ack)))] else [])),
         s.outcome)
  }

  /**
   * A subclass of one of the three abstract category listeners (its hooks
   * are recorded, in order, in `hooks`), or a DeferringFcmMessageListener.
   */
  datatype ListenerKind = HookListener | DeferringListener

  /**
   * AbstractFcmMessageListener and its subclasses. `category` is the
   * message class the listener is declared for.
   */
  class FcmMessageListener {
    const kind: ListenerKind
    const category: Category
    var source: FcmMessageSourceViewer?
    var hooks: seq<Hook>
    /** Only a DeferringFcmMessageListener has this slot. */
    var deferredResult: DeferredResult?

    constructor (kind: ListenerKind, category: Category)
      ensures this.kind == kind && this.category == category
      ensures source == null && hooks == [] && deferredResult == null
    {
      this.kind := kind;
      this.category := category;
      source := null;
      hooks := [];
      deferredResult := null;
    }

    /** A later source replaces the earlier one. */
    method SetSource(v: FcmMessageSourceViewer?)
      modifies this`source
      ensures source == v
    {
      source := v;
    }

    function ViewSource(): FcmMessageSourceViewer?
      reads this`source
    {
      source
    }

    /** The holder slot is overwritten, never merged. */
    method SetDeferredResultHolder(holder: DeferredResult?)
      requires kind == DeferringListener
      modifies this`deferredResult
      ensures deferredResult == holder
    {
      deferredResult := holder;
    }

    /** What onReceiveMessage can change, as seen from this listener. */
    function Observe(instance: CcsClient?): Observed
      reads this`hooks, this`deferredResult, deferredResult, instance
    {
      Observed(hooks, Held(deferredResult), TasksOf(instance))
    }

    /** onReceiveMessage of the listener's class. */
    method OnReceiveMessage(m: Inbound, registry: ClientRegistry) returns (r: Outcome)
      requires CategoryOf(m) == category
      modifies this`hooks, HolderSet(deferredResult), ClientSet(registry.instance)`tasks
      ensures (Observe(registry.instance), r) ==
                Reaction(kind, source != null, deferredResult != null, registry.instance != null,
                         m, old(Observe(registry.instance)))
    {
      match kind {
        case DeferringListener =>
          r := DeferringLog(m);
          if r.Pass? && deferredResult != null {
            var accepted := deferredResult.SetResult(m);
          }
        case HookListener =>
          match m {
            case ResponseIn(resp) =>
              var h := ResponseHook(resp);
              if h.Err? {
                r := Fail(h.error);
              } else {
                hooks := hooks + HookList(h.value);
                r := Pass;
              }
            case ReceiptOrControlIn(c) =>
              var h := ReceiptOrControlHook(c);
              if h.Err? {
                r := Fail(h.error);
              } else {
                hooks := hooks + HookList(h.value);
                r := Pass;
              }
            case UpstreamIn(u) =>
              r := ReceiveUpstream(u, registry);
          }
      }
    }

    /** What processStanza does with the listener of the slot: set the source, then deliver. */
    method Receive(viewer: FcmMessageSourceViewer, m: Inbound, registry: ClientRegistry) returns (r: Outcome)
      requires CategoryOf(m) == category
      modifies this`source, this`hooks, HolderSet(deferredResult), ClientSet(registry.instance)`tasks
      ensures source == viewer
      ensures (Observe(registry.instance), r) ==
                Reaction(kind, true, deferredResult != null, registry.instance != null,
                         m, old(Observe(registry.instance)))
    {
      SetSource(viewer);
      r := OnReceiveMessage(m, registry);
    }

    /** AbstractUpstreamMessageListener.onReceiveMessage, step by step. */
    method ReceiveUpstream(u: Option<UpstreamFields>, registry: ClientRegistry) returns (r: Outcome)
      requires kind == HookListener
      modifies this`hooks, ClientSet(registry.instance)`tasks
      ensures var s := UpstreamReaction(source != null, registry.instance != null, u);
              && r == s.outcome
              && hooks == old(hooks) + (if |s.effects| >= 1 then [ProcessUpstreamMessage(u)] else [])
              && TasksOf(registry.instance) ==
                   old(TasksOf(registry.instance))
                   + (if |s.effects| == 2 then [Some(Encoded(AckWire(s.effects[1].ack)))] else [])
    {
      if source == null {
        return Fail(NullPointer);
      }
      hooks := hooks + [ProcessUpstreamMessage(u)];
      var client := registry.GetInstance();
      if client.Err? {
        return Fail(client.error);
      }
      if u.None? {
        return Fail(NullPointer);
      }
      var ack := GetAcknowledgement(u.value);
      if ack.Err? {
        return Fail(ack.error);
      }
      client.value.SendAsync(Some(Encoded(AckWire(ack.value))));
      r := Pass;
    }
  }

  /**
   * Registering r1 and then r2 on a deferring listener: the next message is
   * offered to r2, and r1 is left exactly as it was.
   */
  method OverwrittenHolderIsNotOffered(l: FcmMessageListener, r1: DeferredResult, r2: DeferredResult,
                                       m: Inbound, registry: ClientRegistry)
    returns (r: Outcome)
    requires l.kind == DeferringListener && CategoryOf(m) == l.category && r1 != r2
    modifies l`deferredResult, l`hooks, r1, r2, ClientSet(registry.instance)`tasks
    ensures unchanged(r1)
    ensures r == DeferringLog(m)
    ensures r2.result == if r.Pass? && old(r2.result).None? then Some(m) else old(r2.result)
    ensures l.deferredResult == r2
    ensures l.hooks == old(l.hooks)
    ensures TasksOf(registry.instance) == old(TasksOf(registry.instance))
  {
    l.SetDeferredResultHolder(r1);
    l.SetDeferredResultHolder(r2);
    r := l.OnReceiveMessage(m, registry);
  }

  // ---- FcmStanzaListener ----

  /**
   * The listener slot a parsed payload is meant for, by its
   * "message_type": none (or null) is an upstream message, "ack"/"nack" a
   * response, "receipt"/"control" a receipt or control message; any other
   * string is an error, and a value that is not a string cannot be cast.
   */
  function Classify(doc: JsonObject): (r: Result<Category>)
    ensures r == Ok(UpstreamCategory) <==> At(doc, MessageTypeKey) == JNull
    ensures r == Ok(ResponseCategory) <==>
              At(doc, MessageTypeKey) == JString(AckType) || At(doc, MessageTypeKey) == JString(NackType)
    ensures r == Ok(ReceiptOrControlCategory) <==>
              At(doc, MessageTypeKey) == JString(ReceiptType) || At(doc, MessageTypeKey) == JString(ControlType)
    ensures r == Err(ClassCast) <==> !At(doc, MessageTypeKey).JNull? && !At(doc, MessageTypeKey).JString?
    ensures r.Err? ==> r == Err(ClassCast) || r == Err(Runtime(UnknownTypeMessage))
  {
    match At(doc, MessageTypeKey)
    case JNull => Ok(UpstreamCategory)
    case JString(t) =>
      if t == AckType || t == NackType then Ok(ResponseCategory)
      else if t == ReceiptType || t == ControlType then Ok(ReceiptOrControlCategory)
      else Err(Runtime(UnknownTypeMessage))
    case _ => Err(ClassCast)
  }

  /** readValue of the payload into the class of the slot (null when it does not bind). */
  function Bound(c: Category, doc: JsonObject): Inbound
  {
    match c
    case UpstreamCategory => UpstreamIn(BindUpstream(doc))
    case ResponseCategory => ResponseIn(BindResponse(doc))
    case ReceiptOrControlCategory => ReceiptOrControlIn(BindReceipt(doc))
  }

  /**
   * What processStanza hands on for a stanza: the payload is read through a
   * source viewer (whose failures escape), classified, and bound to the
   * class of its slot.  A payload that parses to a null map fails the
   * lookup of its message type with a NullPointerException.
   */
  function Route(stanza: Stanza): (r: Result<Inbound>)
    ensures SourceAsMap(Some(stanza)).Err? ==> r == Err(SourceAsMap(Some(stanza)).error)
    ensures stanza.fcmExtension.Some? && stanza.fcmExtension.value.parsed.ParsedNull? ==>
              r == Err(NullPointer)
  {
    match SourceAsMap(Some(stanza))
    case Err(e) => Err(e)
    case Ok(None) => Err(NullPointer)
    case Ok(Some(doc)) =>
      match Classify(doc)
      case Err(e) => Err(e)
      case Ok(c) => Ok(Bound(c, doc))
  }

  /**
   * A stanza whose payload parses to an object is routed by its
   * "message_type" alone: it fails
   * exactly when classification fails, and otherwise goes to the slot of
   * its class, bound to that class.
   */
  lemma RouteOfReadable(stanza: Stanza)
    requires stanza.fcmExtension.Some? && stanza.fcmExtension.value.parsed.Parsed?
    ensures var doc := stanza.fcmExtension.value.parsed.obj;
            var r := Route(stanza);
            && (r.Err? <==> Classify(doc).Err?)
            && (r.Err? ==> r.error == Classify(doc).error)
            && (r.Ok? ==> CategoryOf(r.value) == Classify(doc).value)
            && (r.Ok? && r.value.UpstreamIn? ==> r.value.upstream == BindUpstream(doc))
            && (r.Ok? && r.value.ResponseIn? ==> r.value.response == BindResponse(doc))
            && (r.Ok? && r.value.ReceiptOrControlIn? ==> r.value.receipt == BindReceipt(doc))
  {
  }

  /** Route in terms of the parsed payload. */
  lemma RouteOfParsed(stanza: Stanza, doc: JsonObject)
    requires SourceAsMap(Some(stanza)) == Ok(Some(doc))
    ensures Route(stanza) ==
              if Classify(doc).Err? then Err(Classify(doc).error) else Ok(Bound(Classify(doc).value, doc))
  {
  }

  class FcmStanzaListener {
    var receiptListener: FcmMessageListener?
    var upstreamListener: FcmMessageListener?
    var responseListener: FcmMessageListener?

    /** Each slot holds a listener declared for its message class. */
    ghost predicate Valid()
      reads this
    {
      && (receiptListener != null ==> receiptListener.category == ReceiptOrControlCategory)
      && (upstreamListener != null ==> upstreamListener.category == UpstreamCategory)
      && (responseListener != null ==> responseListener.category == ResponseCategory)
    }

    constructor ()
      ensures Valid()
      ensures receiptListener == null && upstreamListener == null && responseListener == null
    {
      receiptListener := null;
      upstreamListener := null;
      responseListener := null;
    }

    function Slot(c: Category): FcmMessageListener?
      reads this
    {
      match c
      case UpstreamCategory => upstreamListener
      case ResponseCategory => responseListener
      case ReceiptOrControlCategory => receiptListener
    }

    function Listeners(): set<FcmMessageListener>
      reads this
    {
      ListenerSet(receiptListener) + ListenerSet(upstreamListener) + ListenerSet(responseListener)
    }

    /** The result holders of the deferring listeners in the slots. */
    function Holders(): set<DeferredResult>
      reads this, Listeners()
    {
      HolderOf(receiptListener) + HolderOf(upstreamListener) + HolderOf(responseListener)
    }

    /**
     * What processStanza may change, slot by slot: each listener's source
     * and hooks and the result its holder holds, and the client's task queue.
     */
    function State(instance: CcsClient?): (Option<SlotState>, Option<SlotState>, Option<SlotState>, seq<Option<Payload>>)
      reads this, Listeners(), Holders(), instance
    {
      (SlotStateOf(receiptListener), SlotStateOf(upstreamListener), SlotStateOf(responseListener), TasksOf(instance))
    }

    function GetDeliveryReceiptOrControlMessageListener(): FcmMessageListener?
      reads this
    {
      receiptListener
    }

    function GetUpStreamMessageListener(): FcmMessageListener?
      reads this
    {
      upstreamListener
    }

    function GetDownstreamMessageResponseListener(): FcmMessageListener?
      reads this
    {
      responseListener
    }

    method SetDeliveryReceiptOrControlMessageListener(l: FcmMessageListener?)
      requires Valid() && (l != null ==> l.category == ReceiptOrControlCategory)
      modifies this`receiptListener
      ensures Valid() && receiptListener == l
    {
      receiptListener := l;
    }

    /** Empties the slot whatever listener is passed. */
    method RemoveDeliveryReceiptOrControlMessageListener(l: FcmMessageListener?)
      requires Valid()
      modifies this`receiptListener
      ensures Valid() && receiptListener == null
    {
      receiptListener := null;
    }

    method SetUpStreamMessageListener(l: FcmMessageListener?)
      requires Valid() && (l != null ==> l.category == UpstreamCategory)
      modifies this`upstreamListener
      ensures Valid() && upstreamListener == l
    {
      upstreamListener := l;
    }

    /** Empties the slot whatever listener is passed. */
    method RemoveUpStreamMessageListener(l: FcmMessageListener?)
      requires Valid()
      modifies this`upstreamListener
      ensures Valid() && upstreamListener == null
    {
      upstreamListener := null;
    }

    method SetDownstreamMessageResponseListener(l: FcmMessageListener?)
      requires Valid() && (l != null ==> l.category == ResponseCategory)
      modifies this`responseListener
      ensures Valid() && responseListener == l
    {
      responseListener := l;
    }

    /** Empties the slot whatever listener is passed. */
    method RemoveDownstreamMessageResponseListener(l: FcmMessageListener?)
      requires Valid()
      modifies this`responseListener
      ensures Valid() && responseListener == null
    {
      responseListener := null;
    }

    /**
     * processStanza: an unreadable or unclassifiable stanza fails before
     * any listener is touched; a stanza for an empty slot is dropped; else
     * the one listener of its slot gets a viewer of this stanza as its
     * source and then receives the bound message (null if it did not bind).
     */
    method ProcessStanza(stanza: Stanza, registry: ClientRegistry) returns (r: Outcome, ghost routed: Result<Inbound>)
      requires Valid()
      modifies Listeners()`source, Listeners()`hooks, Holders(), ClientSet(registry.instance)`tasks
      ensures routed == Route(stanza)
      ensures routed.Err? ==> r == Fail(routed.error)
      ensures routed.Err? || Slot(CategoryOf(routed.value)) == null ==>
                && (routed.Ok? ==> r == Pass)
                && State(registry.instance) == old(State(registry.instance))
      ensures routed.Ok? && Slot(CategoryOf(routed.value)) != null ==>
                var l := Slot(CategoryOf(routed.value));
                && l.source != null && fresh(l.source) && l.source.messageReceived == Some(stanza)
                && (l.Observe(registry.instance), r) ==
                     Reaction(l.kind, true, l.deferredResult != null, registry.instance != null,
                              routed.value, old(l.Observe(registry.instance)))
                && Kept(receiptListener, l) && Kept(upstreamListener, l) && Kept(responseListener, l)
      ensures routed.Ok? ==>
                forall d: DeferredResult | old(allocated(d)) && d !in HolderOf(Slot(CategoryOf(routed.value))) ::
                  d.result == old(d.result)
    {
      var viewer, m := ReadStanza(stanza, registry);
      routed := m;
      if m.Err? {
        return Fail(m.error), routed;
      }
      r := Dispatch(m.value, viewer, registry);
    }

    /**
     * The first half of processStanza: a new source viewer over the stanza
     * yields its map (and text), which is classified by its message type
     * and bound to the class of its slot.
     */
    method ReadStanza(stanza: Stanza, registry: ClientRegistry) returns (viewer: FcmMessageSourceViewer, m: Result<Inbound>)
      ensures fresh(viewer) && viewer.messageReceived == Some(stanza)
      ensures m == Route(stanza)
      ensures unchanged(this)
      ensures State(registry.instance) == old(State(registry.instance))
      ensures m.Ok? && Slot(CategoryOf(m.value)) != null ==>
                var l := Slot(CategoryOf(m.value));
                l.Observe(registry.instance) == old(l.Observe(registry.instance))
    {
      viewer := new FcmMessageSourceViewer(Some(stanza));
      var asMap := viewer.GetSourceAsMap();
      if asMap.Err? {
        return viewer, Err(asMap.error);
      }
      var asString := viewer.GetSourceAsJSONString();
      if asMap.value.None? {
        return viewer, Err(NullPointer);
      }
      var doc := asMap.value.value;
      RouteOfParsed(stanza, doc);
      var c := Classify(doc);
      if c.Err? {
        return viewer, Err(c.error);
      }
      m := Ok(Bound(c.value, doc));
    }

    /**
     * The second half of processStanza: the message goes to the slot of its
     * class, if that slot holds a listener, after the source viewer is set
     * on that listener.
     */
    method Dispatch(m: Inbound, viewer: FcmMessageSourceViewer, registry: ClientRegistry) returns (r: Outcome)
      requires Valid()
      modifies Listeners()`source, Listeners()`hooks, Holders(), ClientSet(registry.instance)`tasks
      ensures Slot(CategoryOf(m)) == null ==>
                && r == Pass
                && State(registry.instance) == old(State(registry.instance))
      ensures Slot(CategoryOf(m)) != null ==>
                var l := Slot(CategoryOf(m));
                && l.source == viewer
                && (l.Observe(registry.instance), r) ==
                     Reaction(l.kind, true, l.deferredResult != null, registry.instance != null,
                              m, old(l.Observe(registry.instance)))
                && Kept(receiptListener, l) && Kept(upstreamListener, l) && Kept(responseListener, l)
      ensures forall d: DeferredResult | old(allocated(d)) && d !in HolderOf(Slot(CategoryOf(m))) :: d.result == old(d.result)
    {
      var l := Slot(CategoryOf(m));
      if l == null {
        return Pass;
      }
      r := l.Receive(viewer, m, registry);
    }
  }

  // ---- CcsClient ----

  /** The StanzaListener installed on the client. */
  datatype StanzaListenerRef =
    | NoStanzaListener
    | FcmListener(listener: FcmStanzaListener)
    | OtherStanzaListener(id: nat)

  /** The ConnectionListener installed on the client. */
  datatype ConnectionListenerRef =
    | NoConnectionListener
    | LoggedConnectionListener
    | OtherConnectionListener(id: nat)

  function StanzaListenerSet(s: StanzaListenerRef): set<FcmStanzaListener>
  {
    if s.FcmListener? then {s.listener} else {}
  }

  /** A listener connect installs in an empty slot: a fresh logging listener. */
  predicate IsLoggedDefault(l: FcmMessageListener?, c: Category)
    reads l
  {
    l != null && l.kind == HookListener && l.category == c
    && l.source == null && l.hooks == [] && l.deferredResult == null
  }

  /**
   * The stanza check of StanzaSendingTask.run: a null or empty string is
   * refused; anything else is sent exactly as it is.
   */
  function TaskPayload(task: Option<Payload>): (r: Result<Payload>)
    ensures r.Err? <==> task.None? || task == Some(Text(""))
    ensures r.Err? ==> r.error == Runtime(EmptyTaskMessage)
    ensures r.Ok? ==> r.value == task.value
  {
    if task.None? || task.value == Text("") then Err(Runtime(EmptyTaskMessage)) else Ok(task.value)
  }

  /** A serialised document is never empty text, so its task always runs. */
  lemma EncodedTaskRuns(doc: JsonObject)
    ensures TaskPayload(Some(Encoded(doc))) == Ok(Encoded(doc))
  {
  }

  /** The stanza sendBroadcast sends to one recipient. */
  function BroadcastPayload(h: Header, data: Option<NullableStringMap>, notification: Option<JsonObject>,
                            recipient: Option<string>): Payload
  {
    Encoded(MessageWire(h.(to := recipient), data, notification))
  }

  /**
   * The stanzas sendBroadcast sends, one per recipient, in list order: the
   * i-th is the message addressed to the i-th recipient.
   */
  function BroadcastPayloads(h: Header, data: Option<NullableStringMap>, notification: Option<JsonObject>,
                             recipients: seq<Option<string>>): (ps: seq<Payload>)
    ensures |ps| == |recipients|
    ensures forall i | 0 <= i < |recipients| :: ps[i] == BroadcastPayload(h, data, notification, recipients[i])
  {
    if recipients == [] then []
    else [BroadcastPayload(h, data, notification, recipients[0])]
         + BroadcastPayloads(h, data, notification, recipients[1..])
  }

  lemma {:induction false} BroadcastPayloadsAppend(h: Header, data: Option<NullableStringMap>,
                                                    notification: Option<JsonObject>,
                                                    recipients: seq<Option<string>>, last: Option<string>)
    ensures BroadcastPayloads(h, data, notification, recipients + [last]) ==
            BroadcastPayloads(h, data, notification, recipients) + [BroadcastPayload(h, data, notification, last)]
  {
    if recipients == [] {
      assert recipients + [last] == [last];
    } else {
      assert (recipients + [last])[1..] == recipients[1..] + [last];
      BroadcastPayloadsAppend(h, data, notification, recipients[1..], last);
    }
  }

  /**
   * The i-th stanza of a broadcast is addressed to the i-th recipient (an
   * empty or null recipient leaves `to` out) and carries the message's one
   * message id, like every other stanza of that broadcast.
   */
  lemma BroadcastAddressesEachRecipient(h: Header, data: Option<NullableStringMap>,
                                        notification: Option<JsonObject>,
                                        recipients: seq<Option<string>>, i: nat)
    requires h.messageId.Some? && i < |recipients|
    ensures var p := BroadcastPayloads(h, data, notification, recipients)[i];
            && p.Encoded?
            && MessageIdKey in p.doc && p.doc[MessageIdKey] == JString(h.messageId.value)
            && (ToKey in p.doc <==> recipients[i].Some? && recipients[i].value != "")
            && (ToKey in p.doc ==> p.doc[ToKey] == JString(recipients[i].value))
  {
    var h' := h.(to := recipients[i]);
    assert HeaderProperty(h', MessageIdKey) == Some(JString(h.messageId.value));
    assert MessageIdKey in HeaderWire(h');
    assert HeaderProperty(h', ToKey) == NonEmpty(recipients[i]);
  }

  class CcsClient {
    const senderId: Option<string>
    const serverKey: Option<string>
    const debuggable: bool
    const fcmServerUsername: string
    var fcmStanzaListener: StanzaListenerRef
    var connectionListener: ConnectionListenerRef
    /** The stanzas handed to the connection, oldest first. */
    var sent: seq<Payload>
    /** The sending tasks submitted to the executor and not yet run. */
    var tasks: seq<Option<Payload>>

    /** An installed FcmStanzaListener keeps its slots well typed. */
    ghost predicate Valid()
      reads this, StanzaListenerSet(fcmStanzaListener)
    {
      fcmStanzaListener.FcmListener? ==> fcmStanzaListener.listener.Valid()
    }

    /** The private constructor prepareClient uses. */
    constructor (senderId: Option<string>, serverKey: Option<string>, debuggable: bool)
      ensures Valid()
      ensures this.senderId == senderId && this.serverKey == serverKey && this.debuggable == debuggable
      ensures fcmServerUsername == JavaConcatText(senderId) + "@" + FcmServerConnectionEndpoint
      ensures fcmStanzaListener == NoStanzaListener && connectionListener == NoConnectionListener
      ensures sent == [] && tasks == []
    {
      this.senderId := senderId;
      this.serverKey := serverKey;
      this.debuggable := debuggable;
      fcmServerUsername := JavaConcatText(senderId) + "@" + FcmServerConnectionEndpoint;
      fcmStanzaListener := NoStanzaListener;
      connectionListener := NoConnectionListener;
      sent := [];
      tasks := [];
    }

    /**
     * The listener defaulting of connect: no stanza listener becomes a
     * fresh FcmStanzaListener with empty slots; an installed
     * FcmStanzaListener gets logging listeners in exactly its empty slots;
     * a missing connection listener becomes the logging one.
     */
    method Connect()
      requires Valid()
      modifies this`fcmStanzaListener, this`connectionListener, StanzaListenerSet(fcmStanzaListener)
      ensures Valid()
      ensures old(fcmStanzaListener).NoStanzaListener? ==>
                && fcmStanzaListener.FcmListener? && fresh(fcmStanzaListener.listener)
                && fcmStanzaListener.listener.receiptListener == null
                && fcmStanzaListener.listener.upstreamListener == null
                && fcmStanzaListener.listener.responseListener == null
      ensures old(fcmStanzaListener).FcmListener? ==>
                var l := old(fcmStanzaListener).listener;
                && fcmStanzaListener == old(fcmStanzaListener)
                && (old(l.receiptListener) != null ==> l.receiptListener == old(l.receiptListener))
                && (old(l.receiptListener) == null ==>
                      fresh(l.receiptListener) && IsLoggedDefault(l.receiptListener, ReceiptOrControlCategory))
                && (old(l.responseListener) != null ==> l.responseListener == old(l.responseListener))
                && (old(l.responseListener) == null ==>
                      fresh(l.responseListener) && IsLoggedDefault(l.responseListener, ResponseCategory))
                && (old(l.upstreamListener) != null ==> l.upstreamListener == old(l.upstreamListener))
                && (old(l.upstreamListener) == null ==>
                      fresh(l.upstreamListener) && IsLoggedDefault(l.upstreamListener, UpstreamCategory))
      ensures old(fcmStanzaListener).OtherStanzaListener? ==> fcmStanzaListener == old(fcmStanzaListener)
      ensures connectionListener ==
                if old(connectionListener).NoConnectionListener? then LoggedConnectionListener
                else old(connectionListener)
    {
      match fcmStanzaListener {
        case NoStanzaListener =>
          var l := new FcmStanzaListener();
          fcmStanzaListener := FcmListener(l);
        case FcmListener(l) =>
          if l.GetDeliveryReceiptOrControlMessageListener() == null {
            var d := new FcmMessageListener(HookListener, ReceiptOrControlCategory);
            l.SetDeliveryReceiptOrControlMessageListener(d);
          }
          if l.GetDownstreamMessageResponseListener() == null {
            var d := new FcmMessageListener(HookListener, ResponseCategory);
            l.SetDownstreamMessageResponseListener(d);
          }
          if l.GetUpStreamMessageListener() == null {
            var d := new FcmMessageListener(HookListener, UpstreamCategory);
            l.SetUpStreamMessageListener(d);
          }
        case OtherStanzaListener(_) =>
      }
      if connectionListener.NoConnectionListener? {
        connectionListener := LoggedConnectionListener;
      }
    }

    /** send(String): the stanza goes to the connection. */
    method Send(json: Payload)
      modifies this`sent
      ensures sent == old(sent) + [json]
    {
      sent := sent + [json];
    }

    /** send(AbstractDownstreamMessage): sends the message's serialisation. */
    method SendMessage(m: DownstreamMessage, freshId: string)
      modifies this`sent, m`messageId
      ensures m.messageId == Some(AssignedId(old(m.messageId), freshId))
      ensures sent == old(sent) + [Encoded(m.Wire())]
    {
      var w := m.ToString(freshId);
      Send(Encoded(w));
    }

    /** sendAsync(AbstractDownstreamMessage): serialises now, queues the sending. */
    method SendAsyncMessage(m: DownstreamMessage, freshId: string)
      modifies this`tasks, m`messageId
      ensures m.messageId == Some(AssignedId(old(m.messageId), freshId))
      ensures tasks == old(tasks) + [Some(Encoded(m.Wire()))]
    {
      var w := m.ToString(freshId);
      tasks := tasks + [Some(Encoded(w))];
    }

    /** sendAsync(String): queues the sending of the string as given. */
    method SendAsync(json: Option<Payload>)
      modifies this`tasks
      ensures tasks == old(tasks) + [json]
    {
      tasks := tasks + [json];
    }

    /** The executor runs queued task k: StanzaSendingTask.run. */
    method RunTask(k: nat) returns (r: Outcome)
      requires k < |tasks|
      modifies this`tasks, this`sent
      ensures tasks == old(tasks[..k] + tasks[k + 1..])
      ensures var p := TaskPayload(old(tasks[k]));
              && (p.Err? ==> r == Fail(p.error) && sent == old(sent))
              && (p.Ok? ==> r == Pass && sent == old(sent) + [p.value])
    {
      var task := tasks[k];
      tasks := tasks[..k] + tasks[k + 1..];
      if task.None? || task.value == Text("") {
        return Fail(Runtime(EmptyTaskMessage));
      }
      Send(task.value);
      r := Pass;
    }

    /**
     * sendBroadcast: readdresses the one message to each recipient in turn
     * and sends it. Only the first serialisation can assign an id, so every
     * stanza carries the same message id; the message is left addressed to
     * the last recipient.
     */
    method SendBroadcast(m: DownstreamMessage, recipients: seq<Option<string>>, freshId: string)
      modifies this`sent, m`to, m`messageId
      ensures recipients == [] ==> sent == old(sent) && m.to == old(m.to) && m.messageId == old(m.messageId)
      ensures recipients != [] ==>
                && m.to == recipients[|recipients| - 1]
                && m.messageId == Some(AssignedId(old(m.messageId), freshId))
                && sent == old(sent) + BroadcastPayloads(
                     old(m.Snapshot()).(messageId := Some(AssignedId(old(m.messageId), freshId))),
                     m.dataPayload, m.notificationPayload, recipients)
    {
      ghost var h := m.Snapshot().(messageId := Some(AssignedId(m.messageId, freshId)));
      ghost var data, notification := m.dataPayload, m.notificationPayload;
      var i := 0;
      while i < |recipients|
        invariant 0 <= i <= |recipients|
        invariant i == 0 ==> m.to == old(m.to) && m.messageId == old(m.messageId)
        invariant i > 0 ==> m.to == recipients[i - 1] && m.messageId == h.messageId
        invariant sent == old(sent) + BroadcastPayloads(h, data, notification, recipients[..i])
      {
        SendAddressed(m, recipients[i], freshId);
        assert recipients[..i + 1] == recipients[..i] + [recipients[i]];
        BroadcastPayloadsAppend(h, data, notification, recipients[..i], recipients[i]);
        i := i + 1;
      }
      assert recipients[..i] == recipients;
    }

    /** One round of the sendBroadcast loop: readdress the message, then send it. */
    method SendAddressed(m: DownstreamMessage, recipient: Option<string>, freshId: string)
      modifies this`sent, m`to, m`messageId
      ensures m.to == recipient
      ensures m.messageId == Some(AssignedId(old(m.messageId), freshId))
      ensures sent == old(sent) + [BroadcastPayload(old(m.Snapshot()).(messageId := m.messageId),
                                                    m.dataPayload, m.notificationPayload, recipient)]
    {
      m.SetTo(recipient);
      var w := m.ToString(freshId);
      Send(Encoded(w));
    }

    function GetFcmStanzaListener(): StanzaListenerRef
      reads this
    {
      fcmStanzaListener
    }

    method SetFcmStanzaListener(l: StanzaListenerRef)
      requires l.FcmListener? ==> l.listener.Valid()
      modifies this`fcmStanzaListener
      ensures Valid() && fcmStanzaListener == l
    {
      fcmStanzaListener := l;
    }

    /** Clears the stanza listener only when handed the one installed. */
    method RemoveDownstreamMessageListener(l: StanzaListenerRef)
      requires Valid()
      modifies this`fcmStanzaListener
      ensures Valid()
      ensures fcmStanzaListener == if old(fcmStanzaListener) == l then NoStanzaListener else old(fcmStanzaListener)
    {
      if fcmStanzaListener == l {
        fcmStanzaListener := NoStanzaListener;
      }
    }

    function GetConnectionListener(): ConnectionListenerRef
      reads this
    {
      connectionListener
    }

    method SetConnectionListener(l: ConnectionListenerRef)
      modifies this`connectionListener
      ensures connectionListener == l
    {
      connectionListener := l;
    }
  }

  /** The static field holding the CcsClient singleton. */
  class ClientRegistry {
    var instance: CcsClient?

    constructor ()
      ensures instance == null
    {
      instance := null;
    }

    /** getInstance: fails until a client has been prepared. */
    method GetInstance() returns (r: Result<CcsClient>)
      ensures r.Err? <==> instance == null
      ensures r.Err? ==> r.error == IllegalState(NotPreparedMessage)
      ensures r.Ok? ==> r.value == instance
    {
      if instance == null {
        return Err(IllegalState(NotPreparedMessage));
      }
      r := Ok(instance);
    }

    /**
     * prepareClient: the first call creates the client from its arguments;
     * every later call returns that client and ignores its arguments.
     */
    method PrepareClient(senderId: Option<string>, apiKey: Option<string>, debuggable: bool)
      returns (c: CcsClient)
      modifies this
      ensures c == instance
      ensures old(instance) != null ==> c == old(instance)
      ensures old(instance) == null ==>
                && fresh(c) && c.Valid()
                && c.senderId == senderId && c.serverKey == apiKey && c.debuggable == debuggable
                && c.fcmServerUsername == JavaConcatText(senderId) + "@" + FcmServerConnectionEndpoint
                && c.fcmStanzaListener == NoStanzaListener && c.connectionListener == NoConnectionListener
                && c.sent == [] && c.tasks == []
    {
      if instance == null {
        instance := new CcsClient(senderId, apiKey, debuggable);
      }
      c := instance;
    }
  }
}
