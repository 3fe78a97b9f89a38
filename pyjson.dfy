/** Decoded JSON as far as the relay looks into it. Decoding itself is an
    abstract function supplied by the caller; the model only distinguishes
    text that is not JSON, a JSON string, a JSON object, and any other value,
    and keeps the JSON text of values that are stored as they are. */
module PyJson {

  datatype Json =
    | JStr(s: string)
    | JObj(fields: map<string, Json>, text: string)
    | JOther(pyType: string, text: string)
  {
    /** The name of the Python type `json.loads` produces for this value. */
    function PyType(): string {
      match this
      case JStr(_) => "str"
      case JObj(_, _) => "dict"
      case JOther(t, _) => t
    }

    /** The text a store column receives for this value: a string as is,
        anything else as its JSON text. */
    function Stored(): string {
      match this
      case JStr(s) => s
      case JObj(_, t) => t
      case JOther(_, t) => t
    }
  }

  /** The outcome of `json.loads(text)`: a decode error with its message, or
      a value. */
  datatype Decoded = Malformed(error: string) | Value(v: Json)

  /** The empty object `{}`. */
  const EmptyObject: Json := JObj(map[], "{}")

  /** `d.get(key, default)` on a decoded object's fields. */
  function Get(fields: map<string, Json>, key: string, default: Json): (r: Json)
    ensures key in fields ==> r == fields[key]
    ensures key !in fields ==> r == default
  {
    if key in fields then fields[key] else default
  }

  /** The message of the AttributeError raised by `value.attr` when the
      value's type has no such attribute. */
  function NoAttribute(pyType: string, attr: string): string {
    "'" + pyType + "' object has no attribute '" + attr + "'"
  }
}
