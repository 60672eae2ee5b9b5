/** The `avro` package (avro.schema, avro.datafile, avro.io) and `avro_json_serializer`, as oracles. */
module AvroLib {
  import opened PyValues

  /** The Python class of a parsed schema object: `RecordSchema`, another named schema (enum,
      fixed), or an unnamed one (`PrimitiveSchema`, `ArraySchema`, `MapSchema`, `UnionSchema`),
      named by `className`, that has no `namespace` attribute. */
  datatype SchemaKind = RecordKind | OtherNamedKind | UnnamedKind(className: string)

  /** A schema object built by `avro.schema.Parse`. `handle` is the object's identity. */
  datatype AvroSchema = AvroSchema(kind: SchemaKind, namespace: Option<string>, handle: nat)

  /** `isinstance(s, avro.schema.RecordSchema)`, which here coincides with
      `type(s) is avro.schema.RecordSchema`. */
  predicate IsRecordSchema(s: Option<AvroSchema>) {
    s.Some? && s.value.kind == RecordKind
  }

  /** `str(e)` of the `AttributeError` raised by reading `namespace` on an object of `className`. */
  function NoNamespaceAttribute(className: string): string {
    "'" + className + "' object has no attribute 'namespace'"
  }

  /** Reading `s.namespace`: unnamed schema classes have no such attribute. */
  function NamespaceAttr(s: AvroSchema): (r: Call<Option<string>>)
    ensures r.Raised? <==> s.kind.UnnamedKind?
    ensures r.Raised? ==> r.error == NoNamespaceAttribute(s.kind.className)
    ensures r.Returned? ==> r.value == s.namespace
  {
    if s.kind.UnnamedKind? then Raised(NoNamespaceAttribute(s.kind.className)) else Returned(s.namespace)
  }

  /** The argument of the `parse_schema` helpers: any Python value (a dict, a str, `None`, ...)
      or an already built schema object. */
  datatype SchemaArg = SchemaValue(v: Value) | SchemaObject(schema: AvroSchema)

  datatype Avro = Avro(
    /** `avro.schema.Parse(text)`. */
    parse: string -> Call<AvroSchema>,
    /** `DataFileReader(BytesIO(b), DatumReader())`: the `avro.schema` metadata text and every
        datum the iteration yields, or the exception raised while opening or iterating. */
    readContainer: seq<byte> -> Call<(string, seq<Value>)>,
    /** A `DataFileWriter` over the given schema (`None` included) that appends the records in
        order, flushes and hands back the bytes written. */
    writeContainer: (Option<AvroSchema>, seq<Value>) -> Call<seq<byte>>,
    /** `AvroJsonSerializer(schema).to_json(obj)`. */
    toJson: (AvroSchema, Value) -> Call<string>,
    /** `AvroJsonDeserializer(schema).from_json(text)`. */
    fromJson: (AvroSchema, string) -> Call<Value>)
}
