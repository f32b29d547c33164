/**
 * JSON documents as the bridge's Jackson mapper sees them: a parsed object is
 * a map from keys to values, and a serialised entity is the map of the
 * properties Jackson writes for it.  Text layout is not modelled.
 */
module Json {
  import opened Common

  datatype JsonValue =
    | JNull
    | JBool(b: bool)
    | JNumber(n: int)
    | JString(s: string)
    | JArray(items: seq<JsonValue>)
    | JObject(fields: map<string, JsonValue>)

  type JsonObject = map<string, JsonValue>

  /** The one-entry object `{key: v}` when `v` is written, `{}` otherwise. */
  function Entry(key: string, v: Option<JsonValue>): (r: JsonObject)
    ensures r.Keys == if v.Some? then {key} else {}
    ensures v.Some? ==> r[key] == v.value
  {
    if v.Some? then map[key := v.value] else map[]
  }

  // ---- serialisation of single properties under Jackson's inclusion rules ----

  /** A `String` property under `@JsonInclude(NON_NULL)`. */
  function NonNull(v: Option<string>): Option<JsonValue>
  {
    if v.Some? then Some(JString(v.value)) else None
  }

  /** A `String` property under `@JsonInclude(NON_EMPTY)`: null and "" are omitted. */
  function NonEmpty(v: Option<string>): Option<JsonValue>
  {
    if v.Some? && v.value != "" then Some(JString(v.value)) else None
  }

  /** A `Boolean` property under `NON_NULL`. */
  function NonNullBool(v: Option<bool>): Option<JsonValue>
  {
    if v.Some? then Some(JBool(v.value)) else None
  }

  /** An `Integer` property under `NON_NULL`. */
  function NonNullInt(v: Option<Int32>): Option<JsonValue>
  {
    if v.Some? then Some(JNumber(v.value as int)) else None
  }

  /**
   * A Java `Map<String, String>`, whose values may be null.  Null keys are
   * not represented.
   */
  type NullableStringMap = map<string, Option<string>>

  /**
   * A `Map<String, String>` as a JSON object: class-level NON_NULL does not
   * reach into map contents, so a null value is written as JSON null.
   */
  function StringMap(m: NullableStringMap): JsonObject
  {
    map k | k in m :: Nullable(m[k])
  }

  /** A `Map<String, String>` property under `NON_NULL`. */
  function NonNullStringMap(v: Option<NullableStringMap>): Option<JsonValue>
  {
    if v.Some? then Some(JObject(StringMap(v.value))) else None
  }

  /** A `Map<String, Object>` property under `NON_NULL`. */
  function NonNullObject(v: Option<JsonObject>): Option<JsonValue>
  {
    if v.Some? then Some(JObject(v.value)) else None
  }

  /** A `Map<String, Object>` property under `NON_EMPTY`: null and `{}` are omitted. */
  function NonEmptyObject(v: Option<JsonObject>): Option<JsonValue>
  {
    if v.Some? && v.value != map[] then Some(JObject(v.value)) else None
  }

  /** A `String` written under Jackson's default inclusion: null becomes JSON null. */
  function Nullable(v: Option<string>): JsonValue
  {
    if v.Some? then JString(v.value) else JNull
  }

  // ---- binding of a parsed document to a typed entity ----

  /** The value under `key`, with an absent key read as JSON null. */
  function At(doc: JsonObject, key: string): JsonValue
  {
    if key in doc then doc[key] else JNull
  }

  /** `key` can be bound to a `String` property: absent, null or a string. */
  predicate StringOrNullAt(doc: JsonObject, key: string)
  {
    At(doc, key).JNull? || At(doc, key).JString?
  }

  /** `key` can be bound to a `Map` property: absent, null or an object. */
  predicate ObjectOrNullAt(doc: JsonObject, key: string)
  {
    At(doc, key).JNull? || At(doc, key).JObject?
  }

  /** The Java value a `String` property receives from `key`. */
  function StringAt(doc: JsonObject, key: string): Option<string>
  {
    if At(doc, key).JString? then Some(At(doc, key).s) else None
  }

  /** The Java value a `Map` property receives from `key`. */
  function ObjectAt(doc: JsonObject, key: string): Option<JsonObject>
  {
    if At(doc, key).JObject? then Some(At(doc, key).fields) else None
  }

  /** What a NON_EMPTY `String` property looks like after a write and a read. */
  function DropEmpty(v: Option<string>): Option<string>
  {
    if v == Some("") then None else v
  }

  /** What a NON_EMPTY `Map` property looks like after a write and a read. */
  function DropEmptyObject(v: Option<JsonObject>): Option<JsonObject>
  {
    if v == Some(map[]) then None else v
  }
}
