/** avro_object/avro_object.py: the `AvroObject` built on fastavro, and `create_schema`. Its fetch
    registry (`add_fetch_method`, `reset_fetch_methods`, `fetch_json`, `fetch_json_url`) is the code
    of avro_object/avro_tools.py again and is `AvroTools.FetchRegistry` here. */
module FastAvroObject {
  import opened PyValues
  import opened Host
  import opened AvroTools

  // ---------------------------------------------------------------------------------------------
  // fastavro, as oracles

  /** A schema as `fastavro.parse_schema` returns it; `handle` is its identity. */
  datatype FastSchema = FastSchema(handle: nat)

  /** What `fastavro.reader(bdata)` and the iteration over it produce. */
  datatype ContainerRead =
    | HeaderFailed(error: string)                       // reader() raised: no schema was read
    | RecordsFailed(schema: FastSchema, error: string)  // the header was read, the iteration raised
    | Decoded(schema: FastSchema, records: seq<Value>)  // the embedded schema and every record

  datatype FastAvro = FastAvro(
    /** `fastavro.parse_schema(schema)`. */
    parseSchema: Value -> Call<FastSchema>,
    reader: seq<byte> -> ContainerRead,
    /** `fastavro.validate(datum, schema)`: returns, or raises a validation error. */
    validate: (Value, FastSchema) -> Call<bool>,
    /** `fastavro.json_writer(out, schema, records)` and the text written to `out`. */
    jsonWriter: (FastSchema, seq<Value>) -> Call<string>,
    /** `fastavro.writer(out, schema, records)` and the bytes written to `out`. */
    writer: (FastSchema, seq<Value>) -> Call<seq<byte>>)

  /** `fastavro.is_avro(buffer)`: the first four bytes are the container magic. */
  predicate IsAvro(b: seq<byte>) {
    |b| >= 4 && b[..4] == Magic
  }

  // ---------------------------------------------------------------------------------------------
  // The state of an AvroObject and how the constructor fills it

  /** The attributes `_last_error`, `_object_data`, `_json_data`, `_avro_data`, `_origin`, `_ok`
      and `_schema`. The properties `data`, `origin`, `ok` and `last_error` read them unchanged. */
  datatype ObjectState = ObjectState(
    lastError: Option<string>,
    objectData: Value,
    jsonData: Option<string>,
    avroData: Option<seq<byte>>,
    origin: Option<string>,
    ok: bool,
    schema: Option<FastSchema>)

  /** The attributes after the first seven lines of `__init__`. */
  function Initial(schema: Option<FastSchema>): ObjectState {
    ObjectState(None, PyNone, None, None, None, false, schema)
  }

  /** `None` for no record, the record itself for one, the list of all records otherwise. */
  function Collapsed(records: seq<Value>): Value {
    if |records| == 0 then PyNone else if |records| == 1 then records[0] else PyList(records)
  }

  /** The `bytes` branch: the new attributes and what the name `data` holds afterwards. */
  function BytesStage(s: ObjectState, b: seq<byte>, host: Host, fa: FastAvro): (ObjectState, Value) {
    if IsAvro(b) then
      var s1 := s.(origin := Some("binary_avro"));
      match fa.reader(b)
      case HeaderFailed(e) => (s1.(lastError := Some("Avro binary error: " + e)), PyBytes(b))
      case RecordsFailed(sch, e) =>
        (s1.(schema := Some(sch), lastError := Some("Avro binary error: " + e)), PyBytes(b))
      case Decoded(sch, records) =>
        (s1.(schema := Some(sch), objectData := Collapsed(records), ok := true), PyBytes(b))
    else
      var s1 := s.(origin := Some("binary_string"));
      match host.utf8(b)
      case Returned(text) => (s1, PyStr(text))
      case Raised(e) => (s1.(lastError := Some("String decoding error: " + e)), PyBytes(b))
  }

  /** The `str` branch: the new attributes, and whether `__init__` returned early. */
  function TextStage(s: ObjectState, source: string, modes: seq<FetchMethod>, host: Host): (ObjectState, bool) {
    var fetched := Fetched(modes, source, host);
    var s1 := if TextTruthy(s.origin) then s else s.(origin := fetched.origin);
    if !fetched.success then
      (s1.(lastError := Some(fetched.content)), true)
    else
      match host.loads(fetched.content)
      case Returned(v) =>
        (s1.(objectData := v, jsonData := Some(fetched.content), ok := if s1.schema.None? then true else s1.ok), false)
      case Raised(e) =>
        (s1.(lastError := Some("JSON parsing error: " + e)), false)
  }

  /** The final validation step. */
  function Validated(s: ObjectState, fa: FastAvro): ObjectState {
    if !s.objectData.PyNone? && !s.ok && s.schema.Some? then
      match fa.validate(s.objectData, s.schema.value)
      case Returned(_) => s.(ok := true)
      case Raised(e) => s.(lastError := Some("Schema error: " + e))
    else s
  }

  /** The attributes `__init__` leaves, given the schema as `parse_schema` returned it and the
      registry `modes` that `fetch_json` consults. */
  function Ingested(data: Value, schema: Option<FastSchema>, modes: seq<FetchMethod>, host: Host, fa: FastAvro): ObjectState {
    var s0 := Initial(schema);
    var (s1, d) := if data.PyBytes? then BytesStage(s0, data.bytes, host, fa) else (s0, data);
    if d.PyStr? then
      var (s2, returned) := TextStage(s1, d.s, modes, host);
      if returned then s2 else Validated(s2, fa)
    else if d.PyDict? || d.PyList? then
      var s2 := s1.(origin := Some(if d.PyDict? then "dict" else "list"), objectData := d,
                    ok := if s1.schema.None? then true else s1.ok);
      Validated(s2, fa)
    else
      Validated(s1, fa)
  }

  /** `parse_schema(schema)` unless the argument is `None`. */
  function SchemaParsed(schema: Value, fa: FastAvro): Call<Option<FastSchema>> {
    if schema.PyNone? then Returned(None)
    else
      match fa.parseSchema(schema)
      case Returned(s) => Returned(Some(s))
      case Raised(e) => Raised(e)
  }

  /** `AvroObject(data, schema)`: the exception of `parse_schema`, or the attributes `__init__` leaves. */
  function Constructed(data: Value, schema: Value, modes: seq<FetchMethod>, host: Host, fa: FastAvro): Call<ObjectState> {
    match SchemaParsed(schema, fa)
    case Raised(e) => Raised(e)
    case Returned(parsed) => Returned(Ingested(data, parsed, modes, host, fa))
  }

  // ---------------------------------------------------------------------------------------------
  // Exports

  /** `self._object_data if isinstance(self._object_data, list) else [self._object_data]`. */
  function RecordsOf(v: Value): seq<Value> {
    if v.PyList? then v.items else [v]
  }

  /** `to_json`: the attributes afterwards and the call's outcome. An exception of the encoder
      leaves `to_json` and changes nothing. */
  function ToJsonStep(s: ObjectState, host: Host, fa: FastAvro): (ObjectState, Call<Option<string>>) {
    if !s.ok || TextTruthy(s.jsonData) then (s, Returned(s.jsonData))
    else
      var encoded := if s.schema.None? then host.dumps(s.objectData)
                     else fa.jsonWriter(s.schema.value, RecordsOf(s.objectData));
      match encoded
      case Raised(e) => (s, Raised(e))
      case Returned(text) => (s.(jsonData := Some(text)), Returned(Some(text)))
  }

  /** `to_avro`: the attributes afterwards and the call's outcome. */
  function ToAvroStep(s: ObjectState, fa: FastAvro): (ObjectState, Call<Option<seq<byte>>>) {
    if !s.ok || BytesTruthy(s.avroData) || s.schema.None? then (s, Returned(s.avroData))
    else
      match fa.writer(s.schema.value, RecordsOf(s.objectData))
      case Raised(e) => (s, Raised(e))
      case Returned(bin) => (s.(avroData := Some(bin)), Returned(Some(bin)))
  }

  class AvroObject {
    var lastError: Option<string>
    var objectData: Value
    var jsonData: Option<string>
    var avroData: Option<seq<byte>>
    var origin: Option<string>
    var ok: bool
    var schema: Option<FastSchema>

    function State(): ObjectState
      reads this
    {
      ObjectState(lastError, objectData, jsonData, avroData, origin, ok, schema)
    }

    /** `__init__` from line 41 on, `parsedSchema` being the value `parse_schema` gave `_schema`. */
    constructor (data: Value, parsedSchema: Option<FastSchema>, registry: FetchRegistry, host: Host, fa: FastAvro)
      ensures State() == Ingested(data, parsedSchema, registry.modes, host, fa)
    {
      lastError := None;
      objectData := PyNone;
      jsonData := None;
      avroData := None;
      origin := None;
      ok := false;
      schema := parsedSchema;
      new;
      var d := data;
      if d.PyBytes? {
        var bAvro := false;
        var failure: Option<string> := None;
        if IsAvro(d.bytes) {
          origin := Some("binary_avro");
          bAvro := true;
          match fa.reader(d.bytes)
          case HeaderFailed(e) =>
            failure := Some(e);
          case RecordsFailed(sch, e) =>
            schema := Some(sch);
            failure := Some(e);
          case Decoded(sch, records) =>
            schema := Some(sch);
            var objData: seq<Value> := [];
            ghost var before := State();
            for i := 0 to |records|
              invariant objData == records[..i]
              invariant State() == before
            {
              objData := objData + [records[i]];
            }
            assert objData == records;
            objectData := if |objData| == 0 then PyNone else if |objData| == 1 then objData[0] else PyList(objData);
            ok := true;
        } else {
          origin := Some("binary_string");
          var decoded := host.utf8(d.bytes);
          match decoded
          case Returned(text) => d := PyStr(text);
          case Raised(e) => failure := Some(e);
        }
        if failure.Some? {
          lastError := Some((if bAvro then "Avro binary error: " else "String decoding error: ") + failure.value);
        }
      }

      if d.PyStr? {
        var fetched := registry.FetchJson(d.s, host);
        if !TextTruthy(origin) {
          origin := fetched.origin;
        }
        if !fetched.success {
          lastError := Some(fetched.content);
          return;
        }
        match host.loads(fetched.content)
        case Returned(v) =>
          objectData := v;
          jsonData := Some(fetched.content);
          if schema.None? {
            ok := true;
          }
        case Raised(e) =>
          lastError := Some("JSON parsing error: " + e);
      } else if d.PyDict? || d.PyList? {
        origin := Some(if d.PyDict? then "dict" else "list");
        objectData := d;
        if schema.None? {
          ok := true;
        }
      }

      if !objectData.PyNone? && !ok && schema.Some? {
        match fa.validate(objectData, schema.value)
        case Returned(_) => ok := true;
        case Raised(e) => lastError := Some("Schema error: " + e);
      }
    }

    /** `to_json`. */
    method ToJson(host: Host, fa: FastAvro) returns (r: Call<Option<string>>)
      modifies this
      ensures (State(), r) == ToJsonStep(old(State()), host, fa)
    {
      if !ok || TextTruthy(jsonData) {
        return Returned(jsonData);
      }
      var encoded;
      if schema.None? {
        encoded := host.dumps(objectData);
      } else {
        encoded := fa.jsonWriter(schema.value, if objectData.PyList? then objectData.items else [objectData]);
      }
      if encoded.Raised? {
        return Raised(encoded.error);
      }
      jsonData := Some(encoded.value);
      return Returned(jsonData);
    }

    /** `to_avro`. */
    method ToAvro(fa: FastAvro) returns (r: Call<Option<seq<byte>>>)
      modifies this
      ensures (State(), r) == ToAvroStep(old(State()), fa)
    {
      if !ok || BytesTruthy(avroData) || schema.None? {
        return Returned(avroData);
      }
      var written := fa.writer(schema.value, if objectData.PyList? then objectData.items else [objectData]);
      if written.Raised? {
        return Raised(written.error);
      }
      avroData := Some(written.value);
      return Returned(avroData);
    }
  }

  /** `AvroObject(data, schema)`, the exception of `parse_schema` included. */
  method New(data: Value, schema: Value, registry: FetchRegistry, host: Host, fa: FastAvro) returns (r: Call<AvroObject>)
    ensures r.Raised? <==> Constructed(data, schema, registry.modes, host, fa).Raised?
    ensures r.Raised? ==> r.error == Constructed(data, schema, registry.modes, host, fa).error
    ensures r.Returned? ==> fresh(r.value) && r.value.State() == Constructed(data, schema, registry.modes, host, fa).value
  {
    var parsed: Option<FastSchema> := None;
    if !schema.PyNone? {
      var p := fa.parseSchema(schema);
      if p.Raised? {
        return Raised(p.error);
      }
      parsed := Some(p.value);
    }
    var o := new AvroObject(data, parsed, registry, host, fa);
    return Returned(o);
  }

  /** Two exports in a row give the same answers and leave the object as the first left it. */
  method ExportTwice(o: AvroObject, host: Host, fa: FastAvro) returns (json1: Call<Option<string>>, json2: Call<Option<string>>, bin1: Call<Option<seq<byte>>>, bin2: Call<Option<seq<byte>>>)
    modifies o
    ensures json1 == json2 && bin1 == bin2
  {
    json1 := o.ToJson(host, fa);
    ToJsonIdempotent(old(o.State()), host, fa);
    json2 := o.ToJson(host, fa);
    bin1 := o.ToAvro(fa);
    ghost var s := o.State();
    ToAvroIdempotent(o.State(), fa);
    bin2 := o.ToAvro(fa);
    ToAvroIdempotent(s, fa);
  }

  // ---------------------------------------------------------------------------------------------
  // What the constructor leaves, input kind by input kind

  /** Container bytes: origin 'binary_avro', ok, the embedded schema replaces the given one, and
      `data` is `None`, the single record, or the list of records. */
  lemma ContainerInput(b: seq<byte>, schema: Option<FastSchema>, modes: seq<FetchMethod>, host: Host, fa: FastAvro)
    requires IsAvro(b) && fa.reader(b).Decoded?
    ensures var st := Ingested(PyBytes(b), schema, modes, host, fa);
      var records := fa.reader(b).records;
      && st.origin == Some("binary_avro") && st.ok && st.lastError == None
      && st.schema == Some(fa.reader(b).schema)
      && st.jsonData == None && st.avroData == None
      && (|records| == 0 ==> st.objectData == PyNone)
      && (|records| == 1 ==> st.objectData == records[0])
      && (|records| >= 2 ==> st.objectData == PyList(records))
  {
  }

  /** A container that fastavro cannot read: not ok, no data, an error prefixed "Avro binary". */
  lemma UnreadableContainer(b: seq<byte>, schema: Option<FastSchema>, modes: seq<FetchMethod>, host: Host, fa: FastAvro)
    requires IsAvro(b) && !fa.reader(b).Decoded?
    ensures var st := Ingested(PyBytes(b), schema, modes, host, fa);
      && st.origin == Some("binary_avro") && !st.ok && st.objectData == PyNone
      && st.lastError == Some("Avro binary error: " + fa.reader(b).error)
      && st.schema == (if fa.reader(b).RecordsFailed? then Some(fa.reader(b).schema) else schema)
  {
  }

  /** Other bytes are decoded as UTF-8 and then treated exactly as that text, except that the
      origin stays 'binary_string'. */
  lemma DecodedBytesAreText(b: seq<byte>, schema: Option<FastSchema>, modes: seq<FetchMethod>, host: Host, fa: FastAvro)
    requires !IsAvro(b) && host.utf8(b).Returned?
    ensures Ingested(PyBytes(b), schema, modes, host, fa)
         == Ingested(PyStr(host.utf8(b).value), schema, modes, host, fa).(origin := Some("binary_string"))
  {
  }

  /** Bytes that are neither a container nor UTF-8: the only change is the origin and an error
      prefixed "String decoding". */
  lemma UndecodableBytes(b: seq<byte>, schema: Option<FastSchema>, modes: seq<FetchMethod>, host: Host, fa: FastAvro)
    requires !IsAvro(b) && host.utf8(b).Raised?
    ensures Ingested(PyBytes(b), schema, modes, host, fa)
         == Initial(schema).(origin := Some("binary_string"), lastError := Some("String decoding error: " + host.utf8(b).error))
  {
  }

  /** A string that `fetch_json` rejects: its message becomes the last error and `__init__`
      returns before validation, with no data and not ok. */
  lemma UnresolvedText(source: string, schema: Option<FastSchema>, modes: seq<FetchMethod>, host: Host, fa: FastAvro)
    requires !Fetched(modes, source, host).success
    ensures Ingested(PyStr(source), schema, modes, host, fa)
         == Initial(schema).(lastError := Some(Fetched(modes, source, host).content))
  {
  }

  /** A resolved string: `_json_data` is the text, the data is its parse, and ok holds when no
      schema was given or the data passes validation; a validation failure keeps the data and
      records "Schema error: ...". */
  lemma ResolvedText(source: string, schema: Option<FastSchema>, modes: seq<FetchMethod>, host: Host, fa: FastAvro)
    requires Fetched(modes, source, host).success && host.loads(source).Returned?
    ensures var st := Ingested(PyStr(source), schema, modes, host, fa);
      var v := host.loads(source).value;
      && st.objectData == v && st.jsonData == Some(source) && st.origin == Some("string")
      && st.schema == schema
      && (st.ok <==> schema.None? || (!v.PyNone? && fa.validate(v, schema.value).Returned?))
      && st.lastError == (if schema.Some? && !v.PyNone? && fa.validate(v, schema.value).Raised?
                          then Some("Schema error: " + fa.validate(v, schema.value).error) else None)
  {
  }

  /** A dict or a list is the data itself, with origin 'dict' or 'list'; ok as for text. */
  lemma NativeInput(v: Value, schema: Option<FastSchema>, modes: seq<FetchMethod>, host: Host, fa: FastAvro)
    requires v.PyDict? || v.PyList?
    ensures var st := Ingested(v, schema, modes, host, fa);
      && st.objectData == v && st.jsonData == None && st.schema == schema
      && st.origin == Some(if v.PyDict? then "dict" else "list")
      && (st.ok <==> schema.None? || fa.validate(v, schema.value).Returned?)
      && st.lastError == (if schema.Some? && fa.validate(v, schema.value).Raised?
                          then Some("Schema error: " + fa.validate(v, schema.value).error) else None)
  {
  }

  /** Any other value leaves every attribute as initialised: not ok and no data. */
  lemma OtherInput(v: Value, schema: Option<FastSchema>, modes: seq<FetchMethod>, host: Host, fa: FastAvro)
    requires !v.PyBytes? && !v.PyStr? && !v.PyDict? && !v.PyList?
    ensures Ingested(v, schema, modes, host, fa) == Initial(schema)
  {
  }

  /** After construction, ok never goes with an error, and the caches are empty unless the text
      path filled `_json_data`. */
  lemma IngestedConsistent(data: Value, schema: Option<FastSchema>, modes: seq<FetchMethod>, host: Host, fa: FastAvro)
    ensures var st := Ingested(data, schema, modes, host, fa);
      && (st.ok ==> st.lastError == None)
      && st.avroData == None
      && (st.jsonData.Some? ==> st.origin.Some?)
  {
  }

  /** Because `fetch_json` hands back the source rather than what it fetched, a path to a file of
      valid JSON (with the default registry) is itself given to `json.loads`; unless the path is
      JSON text, construction ends in a JSON parsing error with no data. */
  lemma FilePathIsNotLoaded(path: string, schema: Option<FastSchema>, host: Host, fa: FastAvro)
    requires host.files(path).Readable? && host.loads(host.files(path).content).Returned?
    requires host.loads(path).Raised?
    ensures var st := Ingested(PyStr(path), schema, DefaultMethods, host, fa);
      && st.objectData == PyNone && !st.ok && st.origin == Some("string") && st.jsonData == None
      && st.lastError == Some("JSON parsing error: " + host.loads(path).error)
  {
    FetchedFirstSuccess(DefaultMethods, 0, path, host);
  }

  // ---------------------------------------------------------------------------------------------
  // Exports

  /** `to_json` returns `_json_data` without encoding whenever ok is false or the cache is set:
      the answer is the same whatever the encoders would do. */
  lemma ToJsonCacheHit(s: ObjectState, host: Host, fa: FastAvro)
    requires !s.ok || TextTruthy(s.jsonData)
    ensures ToJsonStep(s, host, fa) == (s, Returned(s.jsonData))
  {
  }

  /** A fresh `to_json` of an ok object encodes the data: with `json.dumps` when there is no
      schema, and otherwise with the JSON writer over the data as records (a non-list as a
      one-record list). The text is cached and returned; an encoder exception changes nothing. */
  lemma ToJsonEncodes(s: ObjectState, host: Host, fa: FastAvro)
    requires s.ok && !TextTruthy(s.jsonData)
    ensures var records := if s.objectData.PyList? then s.objectData.items else [s.objectData];
      var encoded := if s.schema.None? then host.dumps(s.objectData) else fa.jsonWriter(s.schema.value, records);
      ToJsonStep(s, host, fa) ==
        match encoded
        case Returned(text) => (s.(jsonData := Some(text)), Returned(Some(text)))
        case Raised(e) => (s, Raised(e))
  {
  }

  /** Calling `to_json` again returns the same value and changes nothing further. */
  lemma ToJsonIdempotent(s: ObjectState, host: Host, fa: FastAvro)
    ensures var (s1, r1) := ToJsonStep(s, host, fa);
      ToJsonStep(s1, host, fa) == (s1, r1)
  {
  }

  /** Text input without a schema exports the resolved text verbatim. */
  lemma TextExportsVerbatim(source: string, modes: seq<FetchMethod>, host: Host, fa: FastAvro)
    requires source != ""
    requires Fetched(modes, source, host).success && host.loads(source).Returned?
    ensures var st := Ingested(PyStr(source), None, modes, host, fa);
      ToJsonStep(st, host, fa) == (st, Returned(Some(source)))
  {
  }

  /** `to_avro` returns `_avro_data` (possibly `None`) without encoding when ok is false, the
      cache is set, or there is no schema. */
  lemma ToAvroCacheHit(s: ObjectState, fa: FastAvro)
    requires !s.ok || BytesTruthy(s.avroData) || s.schema.None?
    ensures ToAvroStep(s, fa) == (s, Returned(s.avroData))
  {
  }

  /** Otherwise a value that is not a list is written as a one-element list of records, a list as
      its elements, and the bytes are cached. */
  lemma ToAvroWritesRecords(s: ObjectState, fa: FastAvro)
    requires s.ok && !BytesTruthy(s.avroData) && s.schema.Some?
    requires fa.writer(s.schema.value, if s.objectData.PyList? then s.objectData.items else [s.objectData]).Returned?
    ensures var bin := fa.writer(s.schema.value, if s.objectData.PyList? then s.objectData.items else [s.objectData]).value;
      ToAvroStep(s, fa) == (s.(avroData := Some(bin)), Returned(Some(bin)))
  {
  }

  /** Calling `to_avro` again returns the same value and changes nothing further. */
  lemma ToAvroIdempotent(s: ObjectState, fa: FastAvro)
    ensures var (s1, r1) := ToAvroStep(s, fa);
      ToAvroStep(s1, fa) == (s1, r1)
  {
  }

  /** The exports touch only their own cache, and a cache once set is never replaced. */
  lemma ExportsOnlyFillCaches(s: ObjectState, host: Host, fa: FastAvro)
    ensures ToJsonStep(s, host, fa).0 == s.(jsonData := ToJsonStep(s, host, fa).0.jsonData)
    ensures ToAvroStep(s, fa).0 == s.(avroData := ToAvroStep(s, fa).0.avroData)
    ensures TextTruthy(s.jsonData) ==> ToJsonStep(s, host, fa).0.jsonData == s.jsonData
    ensures BytesTruthy(s.avroData) ==> ToAvroStep(s, fa).0.avroData == s.avroData
  {
  }

  /** Writing an object and reading the bytes back: when fastavro writes a container that reads
      back as the same records, re-ingesting it gives the original data, except for a list of at
      most one element, which comes back as `None` or as its single element. */
  lemma ReingestWritten(v: Value, sch: FastSchema, other: Option<FastSchema>, modes: seq<FetchMethod>, host: Host, fa: FastAvro)
    requires fa.writer(sch, RecordsOf(v)).Returned?
    requires var bin := fa.writer(sch, RecordsOf(v)).value;
      IsAvro(bin) && fa.reader(bin) == Decoded(sch, RecordsOf(v))
    ensures var again := Ingested(PyBytes(fa.writer(sch, RecordsOf(v)).value), other, modes, host, fa);
      && again.ok && again.schema == Some(sch)
      && (again.objectData == v <==> !(v.PyList? && |v.items| <= 1))
  {
    if v.PyList? && |v.items| == 1 {
      assert v.items[0] < v;
    }
  }

  // ---------------------------------------------------------------------------------------------
  // create_schema

  /** The namespace of every nested record: the parameter's default. */
  const NestedNamespace: string := "namespace.test"

  /** `create_schema(data, name, namespace, doc)`. The input must be a dict, so its type is always
      'record' (the other branches of the classification are unreachable); each key/value pair
      gives one field, built by a call with the default namespace and no doc, so a value that is
      not a dict, or a key that is empty, gives a `None` field. */
  function CreateSchema(data: Value, name: string, namespace: string, doc: Option<string>): (r: Option<SchemaDict>)
    ensures r.None? <==> !data.PyDict? || name == ""
    ensures r.Some? ==>
      && r.value.kind == "record" && r.value.name == name && r.value.namespace == namespace
      && r.value.doc == (if doc.Some? && doc.value != "" then doc else None)
      && |r.value.fields| == |data.entries|
    ensures r.Some? ==> forall i :: 0 <= i < |r.value.fields| ==>
      (r.value.fields[i].Some? <==> data.entries[i].1.PyDict? && data.entries[i].0 != "")
    ensures r.Some? ==> forall i :: 0 <= i < |r.value.fields| && r.value.fields[i].Some? ==>
      && r.value.fields[i].value.name == data.entries[i].0
      && r.value.fields[i].value.namespace == NestedNamespace
      && r.value.fields[i].value.doc == None
      && |r.value.fields[i].value.fields| == |data.entries[i].1.entries|
    decreases data
  {
    if !data.PyDict? then None
    else if name == "" then None
    else
      var entries := data.entries;
      var fields := seq(|entries|, i requires 0 <= i < |entries| =>
                          CreateSchema(entries[i].1, entries[i].0, NestedNamespace, None));
      Some(SchemaDict(namespace, "record", name, fields, if doc.Some? && doc.value != "" then doc else None))
  }

  /** The number of records a derived schema describes, itself and its nested ones. */
  function RecordCount(d: SchemaDict): nat
    decreases d, |d.fields| + 1
  {
    1 + FieldRecordCount(d, 0)
  }

  /** The records described by the fields of `d` from index `k` on. */
  function FieldRecordCount(d: SchemaDict, k: nat): nat
    requires k <= |d.fields|
    decreases d, |d.fields| - k
  {
    if k == |d.fields| then 0
    else (if d.fields[k].Some? then RecordCount(d.fields[k].value) else 0) + FieldRecordCount(d, k + 1)
  }

  /** The dicts of a value reachable from it through non-empty keys, itself included. */
  function DictCount(v: Value): nat
    decreases v, 1
  {
    if v.PyDict? then 1 + EntryDictCount(v, 0) else 0
  }

  /** The dicts reachable through the entries of the dict `v` from index `k` on. */
  function EntryDictCount(v: Value, k: nat): nat
    requires v.PyDict? && k <= |v.entries|
    decreases v, 0, |v.entries| - k
  {
    if k == |v.entries| then 0
    else (if v.entries[k].0 != "" then DictCount(v.entries[k].1) else 0) + EntryDictCount(v, k + 1)
  }

  /** `create_schema` describes every dict reachable through non-empty keys by one record. */
  lemma {:induction false} CreateSchemaCoversDicts(data: Value, name: string, namespace: string, doc: Option<string>)
    requires data.PyDict? && name != ""
    ensures RecordCount(CreateSchema(data, name, namespace, doc).value) == DictCount(data)
    decreases data, 1
  {
    FieldsCoverEntries(data, name, namespace, doc, 0);
  }

  lemma {:induction false} FieldsCoverEntries(data: Value, name: string, namespace: string, doc: Option<string>, k: nat)
    requires data.PyDict? && name != "" && k <= |data.entries|
    ensures FieldRecordCount(CreateSchema(data, name, namespace, doc).value, k) == EntryDictCount(data, k)
    decreases data, 0, |data.entries| - k
  {
    var d := CreateSchema(data, name, namespace, doc).value;
    if k < |data.entries| {
      FieldsCoverEntries(data, name, namespace, doc, k + 1);
      var (key, sub) := data.entries[k];
      assert d.fields[k] == CreateSchema(sub, key, NestedNamespace, None);
      if sub.PyDict? && key != "" {
        CreateSchemaCoversDicts(sub, key, NestedNamespace, None);
      }
    }
  }
}
