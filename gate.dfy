/**
 * The payload gate. A schema is an abstract, deterministic function from a
 * raw payload to either a parsed value or a thrown error. `parseData` runs it,
 * turns any throw into `undefined`, and never itself throws; the wrappers
 * installed by `listen` and `member.bind` call the user's callback only when
 * the gated value is not `undefined`.
 */
module Gate {
  import opened Wrappers

  /** A JavaScript payload value. Numbers are restricted to integers. */
  datatype Value =
    | Undefined
    | Null
    | Bool(b: bool)
    | Number(n: int)
    | Text(s: string)
    | List(items: seq<Value>)
    | Object(fields: map<string, Value>)

  /** What calling a schema's `parse` does: return a value, or throw. */
  datatype ParseResult = Returned(value: Value) | Threw(error: Value)

  /** A schema's parse, abstracted as a total function. */
  type Schema = Value -> ParseResult

  /** The opaque identity of the callback a caller hands to `listen` or `member.bind`. */
  type Callback = nat

  /**
   * The effect of one delivery of a payload to a gated wrapper. The user's
   * callback is opaque and is taken to return normally once invoked.
   */
  datatype Delivery =
    | Invoked(callback: Callback, value: Value)  // the user callback ran with this value
    | Dropped                                    // the delivery was silently dropped
    | TypeErrorThrown                            // the wrapper itself threw before reaching the gate

  /** Looks a key up in a schema table; a missing key reads as `undefined`. */
  function Lookup(table: map<string, Schema>, key: string): (r: Option<Schema>)
    ensures r.Some? <==> key in table
    ensures r.Some? ==> r.value == table[key]
  {
    if key in table then Some(table[key]) else None
  }

  /**
   * `parseData`. A missing schema (`undefined`) makes the call to `parse`
   * throw a TypeError inside the `try`, which is caught like a validation
   * failure. The result is the parsed value on success and `undefined` on any throw.
   */
  function ParseData(schema: Option<Schema>, data: Value): (r: Value)
    ensures schema.Some? && schema.value(data).Returned? ==> r == schema.value(data).value
    ensures schema.None? || schema.value(data).Threw? ==> r == Undefined
  {
    match schema
    case None => Undefined
    case Some(parse) =>
      match parse(data)
      case Returned(v) => v
      case Threw(_) => Undefined
  }

  /** What `parseData` lets through is exactly a value the schema returned for this payload. */
  lemma ParseDataSound(schema: Option<Schema>, data: Value)
    ensures ParseData(schema, data) != Undefined <==>
              schema.Some? && schema.value(data).Returned? && schema.value(data).value != Undefined
    ensures ParseData(schema, data) != Undefined ==> schema.value(data) == Returned(ParseData(schema, data))
  {
  }

  /**
   * The wrapped callback: parse once, and when the result is not `undefined`
   * call the user's callback with the result of parsing a second time.
   */
  function Gated(schema: Option<Schema>, callback: Callback, data: Value): (d: Delivery)
    ensures d != TypeErrorThrown
    ensures d.Invoked? ==> d.callback == callback
  {
    var parsed := ParseData(schema, data);
    if parsed != Undefined then Invoked(callback, ParseData(schema, data)) else Dropped
  }

  /**
   * The callback runs exactly when the schema returns a defined value, and it
   * receives that parsed value rather than the raw payload.
   */
  lemma GatedInvokesIffAccepted(schema: Option<Schema>, callback: Callback, data: Value, v: Value)
    ensures Gated(schema, callback, data) == Invoked(callback, v) <==>
              schema.Some? && schema.value(data) == Returned(v) && v != Undefined
  {
    ParseDataSound(schema, data);
  }

  /**
   * The delivery is dropped exactly when there is no schema, the schema throws,
   * or it returns `undefined` (a value it accepted is then dropped too).
   */
  lemma GatedDropsIffRejected(schema: Option<Schema>, callback: Callback, data: Value)
    ensures Gated(schema, callback, data) == Dropped <==>
              schema.None? || schema.value(data).Threw? || schema.value(data) == Returned(Undefined)
  {
    ParseDataSound(schema, data);
  }

  /** The callback receives the parsed value even when the schema transforms the payload. */
  lemma GatedPassesParsedNotRaw(schema: Schema, callback: Callback, data: Value, v: Value)
    requires schema(data) == Returned(v) && v != Undefined && v != data
    ensures Gated(Some(schema), callback, data) == Invoked(callback, v)
    ensures Gated(Some(schema), callback, data) != Invoked(callback, data)
  {
    GatedInvokesIffAccepted(Some(schema), callback, data, v);
  }
}
