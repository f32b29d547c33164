/**
 * MessageUtils.createJsonAck: the deprecated hand-built acknowledgement,
 * related to the Acknowledgement an UpstreamMessage produces.
 */
module MessageUtils {
  import opened Common
  import opened Json
  import opened Incoming

  /**
   * The map put together by createJsonAck. A HashMap keeps null values and
   * Jackson writes them as JSON null, so all three keys are always present.
   */
  function CreateJsonAck(to: Option<string>, messageId: Option<string>): (m: JsonObject)
    ensures m.Keys == {"message_type", "to", "message_id"}
    ensures m["message_type"] == JString(AckType)
    ensures m["to"] == Nullable(to)
    ensures m["message_id"] == Nullable(messageId)
  {
    map["message_type" := JString(AckType), "to" := Nullable(to), "message_id" := Nullable(messageId)]
  }

  /**
   * For an upstream message that can be acknowledged, createJsonAck of its
   * sender and id produces the same document as its Acknowledgement exactly
   * when neither value is empty (the Acknowledgement leaves empty values out).
   */
  lemma CreateJsonAckMatchesAcknowledgement(u: UpstreamFields)
    requires GetAcknowledgement(u).Ok?
    ensures CreateJsonAck(u.from, u.messageId) == AckWire(GetAcknowledgement(u).value)
            <==> u.from.value != "" && u.messageId.value != ""
  {
    var a := GetAcknowledgement(u).value;
    var m := CreateJsonAck(u.from, u.messageId);
    if u.from.value != "" && u.messageId.value != "" {
      var w := AckWire(a);
      assert w.Keys == m.Keys;
      assert w["to"] == m["to"];
      assert w["message_id"] == m["message_id"];
      assert w["message_type"] == m["message_type"];
    } else if u.from.value == "" {
      assert "to" !in AckWire(a);
    } else {
      assert "message_id" !in AckWire(a);
    }
  }
}
