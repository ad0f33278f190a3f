/**
 * The ordered-map JSON codec behind configuration payloads
 * (`common.ParseJSON` / `common.SerializeJSON`).
 *
 * The ordered-map library is not part of this model: its parser and its
 * compact and indented writers are fields of a `Codec` record, and the one
 * law the provider relies on, that parsing undoes writing with key order
 * kept, is the predicate `Lawful`, assumed only where a lemma says so.
 */
module Codec {
  import opened Wrappers
  import opened Framework

  /** A JSON value whose objects keep their key insertion order. */
  datatype Json =
    | JNull
    | JBool(b: bool)
    | JNumber(literal: string)
    | JString(s: string)
    | JArray(items: seq<Json>)
    | JObject(fields: OrderedMap)

  /** `orderedmap.OrderedMap`: keys with values, in insertion order. */
  datatype OrderedMap = OrderedMap(entries: seq<(string, Json)>)

  /** `orderedmap.New()`. */
  const Empty := OrderedMap([])

  /** The canonical text of an empty object. */
  const EmptyObjectText := "{}"

  /**
   * The library's operations; failures carry the library's error message.
   * `marshal` stands for both compact writers the provider calls: the map's
   * own `MarshalJSON` (the older resources and `SerializeJSON`) and
   * `json.Marshal` of the map (the engine mapper and row handler), which
   * also escapes `<`, `>` and `&`; the model does not tell them apart.
   * `indent(m, prefix, unit)` is `json.MarshalIndent`.
   */
  datatype Codec = Codec(
    unmarshal: string -> Result<OrderedMap, string>,
    marshal: OrderedMap -> Result<string, string>,
    indent: (OrderedMap, string, string) -> Result<string, string>)

  /**
   * The codec law: both writers are inverted by the parser, key order
   * included, and the empty map and "{}" correspond.
   */
  ghost predicate Lawful(c: Codec)
  {
    && (forall m :: c.marshal(m).Success? ==> c.unmarshal(c.marshal(m).value) == Success(m))
    && (forall m, prefix, unit :: c.indent(m, prefix, unit).Success? ==>
          c.unmarshal(c.indent(m, prefix, unit).value) == Success(m))
    && c.unmarshal(EmptyObjectText) == Success(Empty)
    && c.marshal(Empty) == Success(EmptyObjectText)
  }

  /** `ParseJSON`: a null or unknown value is the empty map. */
  function ParseJSON(c: Codec, text: Value<string>): (r: Result<OrderedMap, string>)
    ensures !text.Known? ==> r == Success(Empty)
    ensures text.Known? && c.unmarshal(text.v).Failure? ==>
      r == Failure("failed to parse JSON: " + c.unmarshal(text.v).error)
    ensures text.Known? && c.unmarshal(text.v).Success? ==> r == c.unmarshal(text.v)
  {
    if !text.Known? then Success(Empty)
    else
      match c.unmarshal(text.v)
      case Failure(e) => Failure("failed to parse JSON: " + e)
      case Success(m) => Success(m)
  }

  /** What `SerializeJSON` returns: a framework string and a possible error. */
  datatype Serialized = Serialized(text: Value<string>, err: Option<string>)

  /** `SerializeJSON`: nil is "{}", a failure is a null string and an error. */
  function SerializeJSON(c: Codec, m: Option<OrderedMap>): (r: Serialized)
    ensures m.None? ==> r == Serialized(Known(EmptyObjectText), None)
    ensures r.err.Some? <==> m.Some? && c.marshal(m.value).Failure?
    ensures r.err.Some? ==> r.text == Null
    ensures r.err.None? ==> r.text.Known?
  {
    match m
    case None => Serialized(Known(EmptyObjectText), None)
    case Some(om) =>
      match c.marshal(om)
      case Failure(e) => Serialized(Null, Some("failed to serialize JSON: " + e))
      case Success(t) => Serialized(Known(t), None)
  }

  /**
   * The round trip: whatever `SerializeJSON` writes without error,
   * `ParseJSON` reads back as the same map (nil reading back as empty).
   */
  lemma SerializeParseRoundTrip(c: Codec, m: Option<OrderedMap>)
    requires Lawful(c)
    requires SerializeJSON(c, m).err.None?
    ensures ParseJSON(c, SerializeJSON(c, m).text) == Success(if m.Some? then m.value else Empty)
  {
    if m.Some? {
      assert c.marshal(m.value).Success?;
    }
  }

  /** Nil and the empty map serialise alike. */
  lemma SerializeEmptyIsNil(c: Codec)
    requires Lawful(c)
    ensures SerializeJSON(c, Some(Empty)) == SerializeJSON(c, None)
  {
  }
}
