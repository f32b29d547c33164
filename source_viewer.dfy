/**
 * FcmMessageSourceViewer: a holder for the raw stanza a message came in,
 * with lazily computed and cached views of its JSON text and parsed map.
 */
module SourceViewers {
  import opened Common
  import opened Json

  /**
   * What getAttributeMapFromJsonString's readValue makes of a JSON text: an
   * object, a Java null (the text `null`), or a failure (text that is not
   * JSON, or JSON that is not an object).
   */
  datatype ParseResult = Parsed(obj: JsonObject) | ParsedNull | Unparseable

  /** The FCM packet extension of a stanza: its JSON text, and what parsing it gives. */
  datatype FcmPacket = FcmPacket(json: string, parsed: ParseResult)

  /** A Smack message stanza; `fcmExtension` is None when it has no FCM extension. */
  datatype Stanza = Stanza(fcmExtension: Option<FcmPacket>)

  const ParseFailureMessage := "There was a problem parsing the JSON string."

  /**
   * What getSourceAsJSONString returns for a source: nothing for no source,
   * a NullPointerException for a stanza without the extension, else its text.
   */
  function SourceAsString(source: Option<Stanza>): (r: Result<Option<string>>)
    ensures source.None? ==> r == Ok(None)
    ensures source.Some? ==> (r.Ok? <==> source.value.fcmExtension.Some?)
    ensures r.Ok? && source.Some? ==> r.value == Some(source.value.fcmExtension.value.json)
    ensures r.Err? ==> r.error == NullPointer
  {
    if source.None? then Ok(None)
    else if source.value.fcmExtension.None? then Err(NullPointer)
    else Ok(Some(source.value.fcmExtension.value.json))
  }

  /**
   * What getSourceAsMap returns for a source: the text is obtained first (so
   * its failure comes first), then parsed; a parse failure is a
   * RuntimeException, and the text `null` gives a null map.
   */
  function SourceAsMap(source: Option<Stanza>): (r: Result<Option<JsonObject>>)
    ensures source.None? ==> r == Ok(None)
    ensures SourceAsString(source).Err? ==> r == Err(SourceAsString(source).error)
    ensures source.Some? && SourceAsString(source).Ok? ==>
              var p := source.value.fcmExtension.value;
              && (p.parsed.Unparseable? ==> r == Err(Runtime(ParseFailureMessage)))
              && (p.parsed.ParsedNull? ==> r == Ok(None))
              && (p.parsed.Parsed? ==> r == Ok(Some(p.parsed.obj)))
  {
    if source.None? then Ok(None)
    else match source.value.fcmExtension
      case None => Err(NullPointer)
      case Some(p) =>
        match p.parsed
        case Unparseable => Err(Runtime(ParseFailureMessage))
        case ParsedNull => Ok(None)
        case Parsed(obj) => Ok(Some(obj))
  }

  class FcmMessageSourceViewer {
    var messageReceived: Option<Stanza>
    var sourceAsString: Option<string>
    var sourceAsMap: Option<JsonObject>

    /** A cached view is always the view of the current source. */
    ghost predicate Valid()
      reads this
    {
      && (sourceAsString.Some? ==> SourceAsString(messageReceived) == Ok(sourceAsString))
      && (sourceAsMap.Some? ==>
            sourceAsString.Some? && SourceAsMap(messageReceived) == Ok(sourceAsMap))
    }

    constructor (messageReceived: Option<Stanza>)
      ensures Valid()
      ensures this.messageReceived == messageReceived
      ensures sourceAsString.None? && sourceAsMap.None?
    {
      this.messageReceived := messageReceived;
      sourceAsString := None;
      sourceAsMap := None;
    }

    /** A new source discards both cached views. */
    method SetSource(messageReceived: Option<Stanza>)
      modifies this
      ensures Valid()
      ensures this.messageReceived == messageReceived
      ensures sourceAsString.None? && sourceAsMap.None?
    {
      this.messageReceived := messageReceived;
      ResetSources();
    }

    function ViewSource(): Option<Stanza>
      reads this
    {
      messageReceived
    }

    /**
     * getSourceAsJSONString: the text is extracted at most once per source;
     * the result is the text of the current source whether it was cached or
     * not.
     */
    method GetSourceAsJSONString() returns (r: Result<Option<string>>)
      requires Valid()
      modifies this`sourceAsString
      ensures Valid()
      ensures r == SourceAsString(messageReceived)
      ensures old(sourceAsString).Some? ==> sourceAsString == old(sourceAsString)
      ensures r.Ok? ==> sourceAsString == r.value
      ensures r.Err? ==> sourceAsString == old(sourceAsString)
    {
      if messageReceived.Some? {
        if sourceAsString.None? {
          match messageReceived.value.fcmExtension {
            case None =>
              return Err(NullPointer);
            case Some(p) =>
              sourceAsString := Some(p.json);
          }
        }
      }
      r := Ok(sourceAsString);
    }

    /**
     * getSourceAsMap: fills the text first if needed, then parses it at most
     * once per source; the result is the map of the current source.
     */
    method GetSourceAsMap() returns (r: Result<Option<JsonObject>>)
      requires Valid()
      modifies this`sourceAsString, this`sourceAsMap
      ensures Valid()
      ensures r == SourceAsMap(messageReceived)
      ensures old(sourceAsMap).Some? ==> sourceAsMap == old(sourceAsMap)
      ensures r.Ok? ==> sourceAsMap == r.value
      ensures r.Ok? && messageReceived.Some? ==> sourceAsString == SourceAsString(messageReceived).value
    {
      if messageReceived.Some? {
        if sourceAsString.None? {
          var s := GetSourceAsJSONString();
          if s.Err? {
            return Err(s.error);
          }
        }
        if sourceAsMap.None? {
          match messageReceived.value.fcmExtension.value.parsed {
            case Unparseable =>
              return Err(Runtime(ParseFailureMessage));
            case ParsedNull =>
            case Parsed(obj) =>
              sourceAsMap := Some(obj);
          }
        }
      }
      r := Ok(sourceAsMap);
    }

    method ResetSources()
      modifies this`sourceAsString, this`sourceAsMap
      ensures sourceAsString.None? && sourceAsMap.None?
    {
      sourceAsString := None;
      sourceAsMap := None;
    }
  }
}
