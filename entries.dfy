/**
 * The record both storage readers build for one `rudder_batch…` key, and the
 * decoding rule they share (popup.js and contentScript.js apply the same one).
 */
module Entries {
  import opened Wrappers
  import opened Json
  import opened Text
  import opened Ordered

  /** Keys the RudderStack SDK writes its queued batches under. */
  const BATCH_PREFIX := "rudder_batch"

  predicate IsBatchKey(key: string)
  {
    StartsWith(key, BATCH_PREFIX)
  }

  /**
   * One displayed item: the stored text, its decoded payload (`JNull` when it
   * did not decode), its label (`originalKey`), its `properties`, the time it
   * was read, whether it came from an intercepted batch request, and the time
   * the panel first saw it.
   */
  datatype Entry = Entry(
    value: string,
    parsedValue: Json,
    originalKey: Json,
    propertiesKey: Json,
    timestamp: Option<int>,
    isBatchEvent: bool,
    firstSeen: Option<int>)

  /** A reader's result: one entry per key, in insertion order. */
  type Items = Assoc<string, Entry>

  /**
   * `JSON.parse(JSON.parse(raw))`, counted as a failure when either parse throws,
   * when the result is null (reading `.event` off null throws as well), or when
   * the result is an object with an own `hasOwnProperty` field: that field
   * shadows the method, and the call `parsedJson.hasOwnProperty('properties')`
   * throws because no decoded value is callable.
   */
  function DecodeStored(codec: Codec, raw: string): (r: Option<Json>)
    ensures r.Some? ==> !r.value.JNull? && Field(r.value, "hasOwnProperty").None?
    ensures r.Some? ==> exists outer :: codec.parse(raw) == Some(outer) && codec.parse(Argument(codec, outer)) == r
  {
    match codec.parse(raw)
    case None => None
    case Some(outer) =>
      match codec.parse(Argument(codec, outer))
      case Some(inner) =>
        if inner.JNull? || Field(inner, "hasOwnProperty").Some? then None else Some(inner)
      case None => None
  }

  /**
   * A stored value whose double decoding is an object with an own
   * `hasOwnProperty` field is shown raw, labelled by its key.
   */
  lemma ShadowedMethodIsRaw(codec: Codec, key: string, raw: string, now: int, outer: Json, inner: Json)
    requires codec.parse(raw) == Some(outer) && codec.parse(Argument(codec, outer)) == Some(inner)
    requires Field(inner, "hasOwnProperty").Some?
    ensures DecodeEntry(codec, key, raw, now) == Entry(raw, JNull, JStr(key), JNull, Some(now), false, None)
  {
  }

  /** The entry both readers store for `key` holding `raw`, read at time `now`. */
  function DecodeEntry(codec: Codec, key: string, raw: string, now: int): Entry
  {
    match DecodeStored(codec, raw)
    case Some(payload) =>
      Entry(raw, payload, OrElse(Field(payload, "event"), JStr(key)),
            match Field(payload, "properties") case Some(p) => p case None => JNull,
            Some(now), false, None)
    case None =>
      Entry(raw, JNull, JStr(key), JNull, Some(now), false, None)
  }

  /**
   * What the decoding rule promises of an entry: it keeps the raw text; a value
   * that decodes is labelled by its truthy `event` field or else the key and
   * carries its own `properties` or else null; any other value is shown raw,
   * labelled by the key, with no payload and no properties.
   */
  ghost predicate DecodedFrom(codec: Codec, key: string, raw: string, e: Entry)
  {
    && e.value == raw
    && !e.isBatchEvent
    && e.firstSeen.None?
    && match DecodeStored(codec, raw)
       case Some(payload) =>
         && e.parsedValue == payload
         && (e.originalKey == if Field(payload, "event").Some? && Truthy(Field(payload, "event").value)
                              then Field(payload, "event").value else JStr(key))
         && (e.propertiesKey == if Field(payload, "properties").Some?
                                then Field(payload, "properties").value else JNull)
       case None =>
         e.parsedValue == JNull && e.originalKey == JStr(key) && e.propertiesKey == JNull
  }
}
