/** The slice of JavaScript semantics the HTTP client relies on: JSON values,
    property reads that may throw, Error objects, and the serialisation
    functions the client calls but does not define. */
module Js {
  import opened Wrappers

  /** A value produced by `JSON.parse` (numbers restricted to integers). */
  datatype Json =
    | JNull
    | JBool(b: bool)
    | JNum(n: int)
    | JStr(s: string)
    | JArr(items: seq<Json>)
    | JObj(fields: map<string, Json>)

  /** A value as read from a property: `None` is `undefined`. */
  type Value = Option<Json>

  /** An `Error` object: its constructor name and its `message`. */
  datatype JsError = JsError(name: string, message: string)

  datatype Nullish = Null | Undefined

  /** The `TypeError` a property read on `null` or `undefined` raises
      (the wording is the V8 engine's). */
  function NullAccessError(receiver: Nullish, key: string): JsError
  {
    var shown := if receiver == Null then "null" else "undefined";
    JsError("TypeError", "Cannot read properties of " + shown + " (reading '" + key + "')")
  }

  /** Whether converting a JSON value to a string throws, as the `Error`
      constructor does with its message. An object with an own `toString`
      key has a non-callable `toString`, and its `valueOf` returns the
      object itself, so no primitive is found. An array converts by
      converting its elements. Every other JSON value converts. */
  predicate ToStringThrows(v: Json)
  {
    match v
    case JObj(fields) => "toString" in fields
    case JArr(items) => exists i :: 0 <= i < |items| && ToStringThrows(items[i])
    case _ => false
  }

  /** The `TypeError` a failed conversion to a primitive raises (the
      wording is the V8 engine's). */
  function ConversionError(): JsError
  {
    JsError("TypeError", "Cannot convert object to primitive value")
  }

  /** The result of evaluating `receiver.key`: it throws or yields a value. */
  datatype Access = Throws(error: JsError) | Read(value: Value)

  /** `receiver.key` for a JSON-derived receiver. Only the keys of JSON
      objects are modelled: a read on an array, a string, a number or a
      boolean yields `undefined` here, so array indices, `length` and
      prototype properties are not. None of the keys the client reads
      (`ok`, `data`, `error`, `message`) is one of them. */
  function Get(receiver: Value, key: string): (a: Access)
    ensures a.Throws? <==> receiver == None || receiver == Some(JNull)
    ensures a.Read? && a.value.Some? ==> receiver.value.JObj? && key in receiver.value.fields
    ensures receiver.Some? && receiver.value.JObj? && key in receiver.value.fields ==>
      a == Read(Some(receiver.value.fields[key]))
    ensures receiver.Some? && receiver.value != JNull && !(receiver.value.JObj? && key in receiver.value.fields) ==>
      a == Read(None)
  {
    match receiver
    case None => Throws(NullAccessError(Undefined, key))
    case Some(JNull) => Throws(NullAccessError(Null, key))
    case Some(JObj(fields)) => Read(if key in fields then Some(fields[key]) else None)
    case Some(_) => Read(None)
  }

  /** The JavaScript value held by a variable assigned a parsed body, seen as
      a nullable field: a body that parses to `null` leaves the field null. */
  function Nullable(j: Json): Option<Json>
  {
    if j == JNull then None else Some(j)
  }

  /** The library functions the client calls: `JSON.stringify`,
      `encodeURIComponent`, and the inverses a server applies
      (`JSON.parse`, `decodeURIComponent`). */
  datatype Codec = Codec(
    stringify: Json -> string,
    parse: string -> Option<Json>,
    encodeUriComponent: string -> string,
    decodeUriComponent: string -> string)

  /** The codec behaves as the standard library does on JSON values:
      parsing undoes stringifying and URI-decoding undoes URI-encoding. */
  ghost predicate Lawful(c: Codec)
  {
    && (forall v: Json :: c.parse(c.stringify(v)) == Some(v))
    && (forall s: string :: c.decodeUriComponent(c.encodeUriComponent(s)) == s)
  }
}
