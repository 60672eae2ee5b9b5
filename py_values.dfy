/** Python values as the AvroObject helpers see them, and the outcome of a Python call. */
module PyValues {

  type byte = x: int | 0 <= x < 256

  datatype Option<+T> = None | Some(value: T)

  /** What a call into Python code produced: its return value, or the text `str(e)` of the
      exception it raised. */
  datatype Call<+T> = Returned(value: T) | Raised(error: string)

  /** A Python object of the kinds the helpers receive or build: JSON-shaped data (what `json.loads`
      yields and what decoded Avro records are made of) plus `bytes`. `PyNone` is Python's `None`,
      which is also JSON `null`. A dict keeps its keys in insertion order. */
  datatype Value =
    | PyNone
    | PyBool(b: bool)
    | PyInt(i: int)
    | PyFloat(r: real)
    | PyStr(s: string)
    | PyBytes(bytes: seq<byte>)
    | PyList(items: seq<Value>)
    | PyDict(entries: seq<(string, Value)>)

  /** Python truthiness of an optional `str` attribute: `None` and `''` are false. */
  predicate TextTruthy(t: Option<string>) {
    t.Some? && t.value != ""
  }

  /** Python truthiness of an optional `bytes` attribute: `None` and `b''` are false. */
  predicate BytesTruthy(b: Option<seq<byte>>) {
    b.Some? && b.value != []
  }

  /** `str(True)` and `str(False)`. */
  function BoolText(b: bool): string {
    if b then "True" else "False"
  }

  /** The schema dict that `create_schema` builds:
      `{'namespace': namespace, 'type': kind, 'name': name, 'fields': [...]}`, keys in that order,
      followed by `'doc'` when it is present. A field entry that the recursion answered with `None`
      is `None` here. */
  datatype SchemaDict = SchemaDict(
    namespace: string,
    kind: string,
    name: string,
    fields: seq<Option<SchemaDict>>,
    doc: Option<string>)
}
