/** src/avro_object.py: the older `AvroObject`, built on the `avro` package. */
module LegacyAvroObject {
  import opened PyValues
  import opened Host
  import opened AvroLib
  import opened AvroTools
  import LegacyAvroTools

  /** The tuple kept in `origin`: `('binary', None)` or `('text', <origin of the fetch>)`. */
  datatype Origin = Origin(kind: string, location: Option<string>)

  /** The `(success, message)` tuple the parse helpers return. */
  datatype Reply = Reply(success: bool, message: string)

  /** What `getSchemaInfos` reports; its `type` and `name` entries are always `None`. */
  datatype SchemaInfos = SchemaInfos(namespace: Option<string>, origin: Option<Origin>)

  /** What `ExportToBin_` returns: a two-element refusal, or a three-element tuple with the bytes
      or the exception text. */
  datatype BinOutcome =
    | Refused(message: string)
    | Written(bin: seq<byte>, infos: SchemaInfos)
    | Failed(message: string, infos: SchemaInfos)

  const NoSchema: string := "NO SCHEMA"
  const InvalidParameter: string := "Param\U{EA}tro inv\U{E1}lido"
  const EmptyData: string := "Empty data"
  const JsonDataIsNone: string := "ExportToJSON: data is None"
  const BinDataIsNone: string := "ExportToBin: data is None"
  const BinSchemaUndefined: string := "ExportToBin: schema undefined"

  /** The instance attributes (the always-`None` `type` and `name` aside). `schema` does not exist
      until `__init__` assigns it at line 63 or `_parsebytes` does; nothing reads it before. */
  datatype ObjectState = ObjectState(
    namespace: Option<string>,
    originalData: Value,
    objectData: Value,
    data: Value,
    origin: Option<Origin>,
    ok: bool,
    realdata: Value,
    binData: Option<seq<byte>>,
    jsonData: Option<string>,
    lastError: Option<string>,
    schema: Option<AvroSchema>)

  /** The attributes after lines 33-44 of `__init__`. */
  function Initial(data: Value): ObjectState {
    ObjectState(None, data, PyNone, PyNone, None, false, data, None, None, None, None)
  }

  function InfosOf(s: ObjectState): SchemaInfos {
    SchemaInfos(s.namespace, s.origin)
  }

  /** An absent schema argument. */
  predicate IsNoneArg(arg: SchemaArg) {
    arg == SchemaValue(PyNone)
  }

  // ---------------------------------------------------------------------------------------------
  // The methods as steps on the attributes

  /** `ExportToJSON`: the error is cleared, a cached text is returned as is, and otherwise the
      object data is encoded with the record schema or with `json.dumps`. */
  function ExportToJsonStep(s: ObjectState, host: Host, avro: Avro): (r: (ObjectState, Option<string>))
    ensures r.0 == s.(lastError := r.0.lastError, jsonData := r.0.jsonData)
    ensures r.1.None? <==> r.0.lastError.Some?
    ensures r.1 == r.0.jsonData
    ensures s.jsonData.Some? ==> r == (s.(lastError := None), s.jsonData)
    ensures s.jsonData.None? && s.objectData.PyNone? ==> r.0.lastError == Some(JsonDataIsNone)
  {
    var s1 := s.(lastError := None);
    if s1.jsonData.Some? then (s1, s1.jsonData)
    else if s1.objectData.PyNone? then (s1.(lastError := Some(JsonDataIsNone)), None)
    else
      var encoded := if IsRecordSchema(s1.schema) then avro.toJson(s1.schema.value, s1.objectData)
                     else host.dumps(s1.objectData);
      match encoded
      case Returned(text) => (s1.(jsonData := Some(text)), Some(text))
      case Raised(e) => (s1.(lastError := Some("ExportToJSON:" + e)), None)
  }

  /** `ExportToBin`: both guards come before the cache; a write stores the bytes and sets ok.
      `self.realdata is list` compares with the type object `list`, which no value is, so the
      records given to the writer are always `[realdata]`. */
  function ExportToBinStep(s: ObjectState, avro: Avro): (r: (ObjectState, Option<seq<byte>>))
    ensures r.0 == s.(lastError := r.0.lastError, binData := r.0.binData, ok := r.0.ok)
    ensures r.1.None? <==> r.0.lastError.Some?
    ensures s.realdata.PyNone? ==> r == (s.(lastError := Some(BinDataIsNone)), None)
    ensures !s.realdata.PyNone? && !IsRecordSchema(s.schema) ==> r == (s.(lastError := Some(BinSchemaUndefined)), None)
    ensures r.1.Some? ==> r.1 == r.0.binData
    ensures s.binData.Some? ==> r.0.binData == s.binData && r.0.ok == s.ok
    ensures r.0.ok <==> s.ok || (s.binData.None? && r.1.Some?)
  {
    if s.realdata.PyNone? then (s.(lastError := Some(BinDataIsNone)), None)
    else if !IsRecordSchema(s.schema) then (s.(lastError := Some(BinSchemaUndefined)), None)
    else
      var s1 := s.(lastError := None);
      if s1.binData.Some? then (s1, s1.binData)
      else
        match avro.writeContainer(s1.schema, [s1.realdata])
        case Returned(bin) => (s1.(binData := Some(bin), ok := true), Some(bin))
        case Raised(e) => (s1.(lastError := Some("ExportToBin:" + e)), None)
  }

  /** The schema test shared by `_parseschema`: accept and store only a record schema. */
  function Accepted(s: ObjectState, a: SchemaArg): (ObjectState, Call<Reply>) {
    if a.SchemaObject? && a.schema.kind == RecordKind then (s.(schema := Some(a.schema)), Returned(Reply(true, "OK")))
    else (s, Returned(Reply(false, NoSchema)))
  }

  /** `_parseschema`: the exception of `json.dumps` on a dict escapes; otherwise a record schema
      is stored with `(True, 'OK')`, and every other outcome leaves the attributes alone. */
  function ParseSchemaArgStep(s: ObjectState, arg: SchemaArg, host: Host, avro: Avro): (r: (ObjectState, Call<Reply>))
    ensures r.1.Raised? <==> arg.SchemaValue? && arg.v.PyDict? && host.dumps(arg.v).Raised?
    ensures r.1.Returned? && r.1.value.success ==>
      r.1.value.message == "OK" && IsRecordSchema(r.0.schema) && r.0 == s.(schema := r.0.schema)
    ensures !(r.1.Returned? && r.1.value.success) ==> r.0 == s
    ensures arg.SchemaObject? ==>
      r == if arg.schema.kind == RecordKind then (s.(schema := Some(arg.schema)), Returned(Reply(true, "OK")))
           else (s, Returned(Reply(false, NoSchema)))
    ensures arg.SchemaValue? && !arg.v.PyDict? && !arg.v.PyStr? ==> r == (s, Returned(Reply(false, NoSchema)))
  {
    match DictDumped(arg, host)
    case Raised(e) => (s, Raised(e))
    case Returned(a) =>
      if a.SchemaValue? && a.v.PyStr? then
        var fetch := LegacyAvroTools.FetchJson(a.v.s, host);
        if !fetch.success then (s, Returned(Reply(false, fetch.content)))
        else
          match avro.parse(fetch.content)
          case Raised(e) => (s, Returned(Reply(false, e)))
          case Returned(sch) => Accepted(s, SchemaObject(sch))
      else Accepted(s, a)
  }

  /** `_parsebytes`: a single record is collapsed to itself, any other count stays a list (the
      empty list included); the embedded schema, the data, origin `('binary', None)` and ok are
      set together, and an exception only clears ok. */
  function ParseBytesStep(s: ObjectState, b: seq<byte>, avro: Avro): (r: (ObjectState, Reply))
    ensures r.1.success ==> r.1.message == "OK" && r.0.schema.Some? && r.0.ok
    ensures !r.1.success ==> r.0 == s.(ok := false)
    ensures r.1.success <==> avro.readContainer(b).Returned? && avro.parse(avro.readContainer(b).value.0).Returned?
  {
    match avro.readContainer(b)
    case Raised(e) => (s.(ok := false), Reply(false, e))
    case Returned((cschema, records)) =>
      var objData := if |records| == 1 then records[0] else PyList(records);
      match avro.parse(cschema)
      case Raised(e) => (s.(ok := false), Reply(false, e))
      case Returned(sch) =>
        (s.(schema := Some(sch), objectData := objData, origin := Some(Origin("binary", None)), ok := true), Reply(true, "OK"))
  }

  /** The tail of `_parsestr` once the schema argument has been dealt with. */
  function DecodedText(s: ObjectState, text: string, location: Option<string>, host: Host, avro: Avro): (ObjectState, Reply) {
    var obj := if IsRecordSchema(s.schema) then avro.fromJson(s.schema.value, text) else host.loads(text);
    match obj
    case Raised(e) => (s.(ok := false), Reply(false, e))
    case Returned(v) => (s.(data := v, origin := Some(Origin("text", location)), ok := true), Reply(true, "OK"))
  }

  /** `_parsestr`: the fetched text is decoded into the `data` attribute. An exception of
      `_parseschema` is caught here. The object data and both caches are left alone. */
  function ParseStrStep(s: ObjectState, text: string, arg: SchemaArg, host: Host, avro: Avro): (r: (ObjectState, Reply))
    ensures r.0 == s.(data := r.0.data, origin := r.0.origin, ok := r.0.ok, schema := r.0.schema)
    ensures r.1.success ==>
      && r.0.ok && r.1.message == "OK"
      && r.0.origin == Some(Origin("text", LegacyAvroTools.FetchJson(text, host).origin))
    ensures !r.1.success ==> !r.0.ok && r.0.data == s.data && r.0.origin == s.origin
  {
    var f := LegacyAvroTools.FetchJson(text, host);
    if !f.success then (s, Reply(false, f.content))
    else if IsNoneArg(arg) then DecodedText(s, f.content, f.origin, host, avro)
    else
      var (s1, p) := ParseSchemaArgStep(s, arg, host, avro);
      if p.Raised? then (s1.(ok := false), Reply(false, p.error))
      else DecodedText(s1, f.content, f.origin, host, avro)
  }

  /** `Parse`: exact `bytes` and `str` go to their helpers; anything else clears ok. */
  function ParseStep(s: ObjectState, data: Value, arg: SchemaArg, host: Host, avro: Avro): (ObjectState, Reply) {
    if data.PyBytes? then ParseBytesStep(s, data.bytes, avro)
    else if data.PyStr? then ParseStrStep(s, data.s, arg, host, avro)
    else (s.(ok := false), Reply(false, InvalidParameter))
  }

  /** The write of `ExportToBin_` under the current schema, `None` unless it is a record schema.
      `data is not list` always holds, so the value is appended as one record. */
  function WrittenWith(s: ObjectState, d: Value, avro: Avro): (ObjectState, Call<BinOutcome>) {
    var sch := if IsRecordSchema(s.schema) then s.schema else None;
    match avro.writeContainer(sch, [d])
    case Raised(e) => (s, Returned(Failed(e, InfosOf(s))))
    case Returned(bin) =>
      var s1 := s.(binData := Some(bin), ok := true);
      (s1, Returned(Written(bin, InfosOf(s1))))
  }

  /** `ExportToBin_`: `data` defaults to `realdata`, and a given schema argument must pass
      `_parseschema` (whose escaping exception escapes here too). */
  function ExportToBinArgsStep(s: ObjectState, data: Value, arg: SchemaArg, host: Host, avro: Avro): (ObjectState, Call<BinOutcome>) {
    if data.PyNone? && s.realdata.PyNone? then (s, Returned(Refused(EmptyData)))
    else
      var d := if data.PyNone? then s.realdata else data;
      if IsNoneArg(arg) then WrittenWith(s, d, avro)
      else
        var (s1, p) := ParseSchemaArgStep(s, arg, host, avro);
        if p.Raised? then (s1, Raised(p.error))
        else if !p.value.success then (s1, Returned(Refused(p.value.message)))
        else WrittenWith(s1, d, avro)
  }

  /** Lines 46-54 of `__init__`: a string is fetched and its content loaded into `object_data`;
      the second component is what the local `data` holds afterwards. */
  function Loaded(s: ObjectState, data: Value, host: Host): (ObjectState, Value) {
    if data.PyStr? then
      var dt := LegacyAvroTools.FetchJson(data.s, host);
      if dt.success then
        match host.loads(dt.content)
        case Returned(v) => (s.(objectData := v), v)
        case Raised(e) => (s.(lastError := Some("Erro em AvroObject(" + BoolText(dt.success) + "):" + e)), data)
      else (s, data)
    else (s, data)
  }

  /** Lines 63-70 of `__init__`. */
  function Finished(s: ObjectState, d: Value, arg: SchemaArg, host: Host, avro: Avro): Call<ObjectState> {
    match LegacyAvroTools.ParseSchema(arg, host, avro)
    case Raised(e) => Raised(e)
    case Returned(ps) =>
      var s1 := s.(schema := ps);
      var s2 := if ps.Some? then s1.(namespace := ps.value.namespace) else s1;
      if d.PyNone? then Returned(s2)
      else
        var s3 := s2.(realdata := d);
        Returned(ExportToJsonStep(ExportToBinStep(s3, avro).0, host, avro).0)
  }

  /** `AvroObject(data, schema)`: the attributes it leaves, or the exception it raises. */
  function Constructed(data: Value, arg: SchemaArg, host: Host, avro: Avro): Call<ObjectState> {
    var s0 := Initial(data);
    if data.PyStr? then
      var (s1, d) := Loaded(s0, data, host);
      Finished(s1, d, arg, host, avro)
    else if IsAvroBinary(data) then
      var (s1, p) := ParseBytesStep(s0, data.bytes, avro);
      if p.success then
        match NamespaceAttr(s1.schema.value)
        case Raised(e) => Raised(e)
        case Returned(ns) => Returned(ExportToJsonStep(s1.(namespace := ns), host, avro).0)
      else Finished(s1, PyNone, arg, host, avro)
    else Finished(s0, data, arg, host, avro)
  }

  // ---------------------------------------------------------------------------------------------
  // The class

  class AvroObject {
    var namespace: Option<string>
    var originalData: Value
    var objectData: Value
    var data: Value
    var origin: Option<Origin>
    var ok: bool
    var realdata: Value
    var binData: Option<seq<byte>>
    var jsonData: Option<string>
    var lastError: Option<string>
    var schema: Option<AvroSchema>

    function State(): ObjectState
      reads this
    {
      ObjectState(namespace, originalData, objectData, data, origin, ok, realdata, binData, jsonData, lastError, schema)
    }

    /** Lines 33-44 of `__init__`. */
    constructor (data: Value)
      ensures State() == Initial(data)
    {
      namespace := None;
      originalData := data;
      objectData := PyNone;
      this.data := PyNone;
      origin := None;
      ok := false;
      realdata := data;
      binData := None;
      jsonData := None;
      lastError := None;
      schema := None;
    }

    /** Lines 46-70 of `__init__`, run on the freshly initialised attributes. */
    method Initialize(arg: SchemaArg, host: Host, avro: Avro) returns (r: Call<()>)
      requires State() == Initial(originalData)
      modifies this
      ensures r.Raised? <==> Constructed(old(originalData), arg, host, avro).Raised?
      ensures r.Raised? ==> r.error == Constructed(old(originalData), arg, host, avro).error
      ensures r.Returned? ==> State() == Constructed(old(originalData), arg, host, avro).value
    {
      var d := originalData;
      if d.PyStr? {
        var dt := LegacyAvroTools.FetchJson(d.s, host);
        if dt.success {
          match host.loads(dt.content)
          case Returned(v) =>
            d := v;
            objectData := v;
          case Raised(e) =>
            lastError := Some("Erro em AvroObject(" + BoolText(dt.success) + "):" + e);
        }
      } else if IsAvroBinary(d) {
        var p := ParseBytes(d.bytes, avro);
        if p.success {
          var ns := NamespaceAttr(schema.value);
          if ns.Raised? {
            return Raised(ns.error);
          }
          namespace := ns.value;
          var exported := ExportToJson(host, avro);
          return Returned(());
        } else {
          d := PyNone;
        }
      }
      var parsed := LegacyAvroTools.ParseSchema(arg, host, avro);
      if parsed.Raised? {
        return Raised(parsed.error);
      }
      schema := parsed.value;
      if schema.Some? {
        namespace := schema.value.namespace;
      }
      if !d.PyNone? {
        realdata := d;
        var bin := ExportToBin(avro);
        var json := ExportToJson(host, avro);
      }
      return Returned(());
    }

    /** `ExportToJSON`. */
    method ExportToJson(host: Host, avro: Avro) returns (r: Option<string>)
      modifies this
      ensures (State(), r) == ExportToJsonStep(old(State()), host, avro)
    {
      lastError := None;
      if jsonData.None? {
        if objectData.PyNone? {
          lastError := Some(JsonDataIsNone);
          return None;
        }
        var encoded;
        if IsRecordSchema(schema) {
          encoded := avro.toJson(schema.value, objectData);
        } else {
          encoded := host.dumps(objectData);
        }
        match encoded
        case Returned(text) => jsonData := Some(text);
        case Raised(e) => lastError := Some("ExportToJSON:" + e);
      }
      return jsonData;
    }

    /** `ExportToBin`, with the loop appending each record to the writer. */
    method ExportToBin(avro: Avro) returns (r: Option<seq<byte>>)
      modifies this
      ensures (State(), r) == ExportToBinStep(old(State()), avro)
    {
      if realdata.PyNone? {
        lastError := Some(BinDataIsNone);
        return None;
      }
      if !IsRecordSchema(schema) {
        lastError := Some(BinSchemaUndefined);
        return None;
      }
      lastError := None;
      if binData.Some? {
        return binData;
      }
      // `self.realdata is list` is false for every value: the records are `[self.realdata]`.
      var records := [realdata];
      var appended: seq<Value> := [];
      ghost var before := State();
      for i := 0 to |records|
        invariant appended == records[..i]
        invariant State() == before
      {
        appended := appended + [records[i]];
      }
      assert appended == [realdata];
      var written := avro.writeContainer(schema, appended);
      if written.Raised? {
        lastError := Some("ExportToBin:" + written.error);
        return None;
      }
      binData := Some(written.value);
      ok := true;
      return binData;
    }

    /** `_parseschema`. */
    method ParseSchemaArg(arg: SchemaArg, host: Host, avro: Avro) returns (r: Call<Reply>)
      modifies this
      ensures (State(), r) == ParseSchemaArgStep(old(State()), arg, host, avro)
    {
      var a := arg;
      if a.SchemaValue? && a.v.PyDict? {
        var dumped := host.dumps(a.v);
        if dumped.Raised? {
          return Raised(dumped.error);
        }
        a := SchemaValue(PyStr(dumped.value));
      }
      if a.SchemaValue? && a.v.PyStr? {
        var fetch := LegacyAvroTools.FetchJson(a.v.s, host);
        if !fetch.success {
          return Returned(Reply(false, fetch.content));
        }
        var parsed := avro.parse(fetch.content);
        if parsed.Raised? {
          return Returned(Reply(false, parsed.error));
        }
        a := SchemaObject(parsed.value);
      }
      if a.SchemaObject? && a.schema.kind == RecordKind {
        schema := Some(a.schema);
        return Returned(Reply(true, "OK"));
      }
      return Returned(Reply(false, NoSchema));
    }

    /** `_parsebytes`, with the loop collecting the records. */
    method ParseBytes(b: seq<byte>, avro: Avro) returns (r: Reply)
      modifies this
      ensures (State(), r) == ParseBytesStep(old(State()), b, avro)
    {
      var read := avro.readContainer(b);
      if read.Raised? {
        ok := false;
        return Reply(false, read.error);
      }
      var (cschema, datums) := read.value;
      var objData: seq<Value> := [];
      ghost var before := State();
      for i := 0 to |datums|
        invariant objData == datums[..i]
        invariant State() == before
      {
        objData := objData + [datums[i]];
      }
      assert objData == datums;
      var collapsed := if |objData| == 1 then objData[0] else PyList(objData);
      var parsed := avro.parse(cschema);
      if parsed.Raised? {
        ok := false;
        return Reply(false, parsed.error);
      }
      schema := Some(parsed.value);
      objectData := collapsed;
      origin := Some(Origin("binary", None));
      ok := true;
      return Reply(true, "OK");
    }

    /** `_parsestr`. */
    method ParseStr(text: string, arg: SchemaArg, host: Host, avro: Avro) returns (r: Reply)
      modifies this
      ensures (State(), r) == ParseStrStep(old(State()), text, arg, host, avro)
    {
      var f := LegacyAvroTools.FetchJson(text, host);
      if !f.success {
        return Reply(false, f.content);
      }
      if !IsNoneArg(arg) {
        var p := ParseSchemaArg(arg, host, avro);
        if p.Raised? {
          ok := false;
          return Reply(false, p.error);
        }
      }
      var obj := if IsRecordSchema(schema) then avro.fromJson(schema.value, f.content) else host.loads(f.content);
      if obj.Raised? {
        ok := false;
        return Reply(false, obj.error);
      }
      data := obj.value;
      origin := Some(Origin("text", f.origin));
      ok := true;
      return Reply(true, "OK");
    }

    /** `Parse`. */
    method Parse(data: Value, arg: SchemaArg, host: Host, avro: Avro) returns (r: Reply)
      modifies this
      ensures (State(), r) == ParseStep(old(State()), data, arg, host, avro)
    {
      if data.PyBytes? {
        r := ParseBytes(data.bytes, avro);
      } else if data.PyStr? {
        r := ParseStr(data.s, arg, host, avro);
      } else {
        ok := false;
        r := Reply(false, InvalidParameter);
      }
    }

    /** `ExportToBin_`. */
    method ExportToBinArgs(data: Value, arg: SchemaArg, host: Host, avro: Avro) returns (r: Call<BinOutcome>)
      modifies this
      ensures (State(), r) == ExportToBinArgsStep(old(State()), data, arg, host, avro)
    {
      var d := data;
      if d.PyNone? {
        if realdata.PyNone? {
          return Returned(Refused(EmptyData));
        }
        d := realdata;
      }
      if !IsNoneArg(arg) {
        var p := ParseSchemaArg(arg, host, avro);
        if p.Raised? {
          return Raised(p.error);
        }
        if !p.value.success {
          return Returned(Refused(p.value.message));
        }
      }
      var sch := schema;
      if !IsRecordSchema(sch) {
        sch := None;
      }
      // `data is not list` holds for every value: the value is appended as one record.
      var written := avro.writeContainer(sch, [d]);
      if written.Raised? {
        return Returned(Failed(written.error, InfosOf(State())));
      }
      binData := Some(written.value);
      ok := true;
      return Returned(Written(written.value, InfosOf(State())));
    }
  }

  /** `AvroObject(data, schema)`, the exceptions of the constructor included. */
  method New(data: Value, arg: SchemaArg, host: Host, avro: Avro) returns (r: Call<AvroObject>)
    ensures r.Raised? <==> Constructed(data, arg, host, avro).Raised?
    ensures r.Raised? ==> r.error == Constructed(data, arg, host, avro).error
    ensures r.Returned? ==> fresh(r.value) && r.value.State() == Constructed(data, arg, host, avro).value
  {
    var o := new AvroObject(data);
    var c := o.Initialize(arg, host, avro);
    if c.Raised? {
      return Raised(c.error);
    }
    return Returned(o);
  }

  // ---------------------------------------------------------------------------------------------
  // Properties

  /** `Parse` of anything but `bytes` or `str` clears ok and changes nothing else. */
  lemma ParseRejectsOtherTypes(s: ObjectState, data: Value, arg: SchemaArg, host: Host, avro: Avro)
    requires !data.PyBytes? && !data.PyStr?
    ensures ParseStep(s, data, arg, host, avro) == (s.(ok := false), Reply(false, InvalidParameter))
  {
  }

  /** The record collapse of `_parsebytes`: no record gives an empty list, one the record itself,
      more the list; the embedded schema replaces the current one. */
  lemma ParseBytesCollapse(s: ObjectState, b: seq<byte>, avro: Avro)
    requires avro.readContainer(b).Returned? && avro.parse(avro.readContainer(b).value.0).Returned?
    ensures var records := avro.readContainer(b).value.1;
      var st := ParseBytesStep(s, b, avro).0;
      && st.schema == Some(avro.parse(avro.readContainer(b).value.0).value)
      && st.origin == Some(Origin("binary", None)) && st.ok
      && (|records| == 0 ==> st.objectData == PyList([]))
      && (|records| == 1 ==> st.objectData == records[0])
      && (|records| >= 2 ==> st.objectData == PyList(records))
  {
  }

  /** A fresh `ExportToJSON` of non-`None` object data encodes it with `avro_json_serializer` under
      a record schema and with `json.dumps` otherwise; the text is cached and returned, and an
      encoder exception becomes the error with nothing cached. */
  lemma ExportToJsonEncodes(s: ObjectState, host: Host, avro: Avro)
    requires s.jsonData.None? && !s.objectData.PyNone?
    ensures var encoded := if IsRecordSchema(s.schema) then avro.toJson(s.schema.value, s.objectData)
                           else host.dumps(s.objectData);
      ExportToJsonStep(s, host, avro) ==
        match encoded
        case Returned(text) => (s.(lastError := None, jsonData := Some(text)), Some(text))
        case Raised(e) => (s.(lastError := Some("ExportToJSON:" + e)), None)
  {
  }

  /** A second `ExportToJSON` returns what the first returned and leaves what it left. */
  lemma ExportToJsonIdempotent(s: ObjectState, host: Host, avro: Avro)
    ensures var first := ExportToJsonStep(s, host, avro);
      ExportToJsonStep(first.0, host, avro) == first
  {
  }

  /** A second `ExportToBin` returns what the first returned and leaves what it left. */
  lemma ExportToBinIdempotent(s: ObjectState, avro: Avro)
    ensures var first := ExportToBinStep(s, avro);
      ExportToBinStep(first.0, avro) == first
  {
  }

  /** Because the whole `realdata` is written as a single record, a codec that reads back what it
      wrote makes `_parsebytes` recover `realdata` exactly, a list included. */
  lemma ExportedBinReadsBack(s: ObjectState, avro: Avro, s2: ObjectState)
    requires !s.realdata.PyNone? && IsRecordSchema(s.schema) && s.binData.None?
    requires avro.writeContainer(s.schema, [s.realdata]).Returned?
    requires var bin := avro.writeContainer(s.schema, [s.realdata]).value;
      avro.readContainer(bin).Returned? && avro.readContainer(bin).value.1 == [s.realdata]
      && avro.parse(avro.readContainer(bin).value.0).Returned?
    ensures ExportToBinStep(s, avro).1 == Some(avro.writeContainer(s.schema, [s.realdata]).value)
    ensures ParseBytesStep(s2, ExportToBinStep(s, avro).1.value, avro).0.objectData == s.realdata
  {
  }

  /** `ExportToBin_` hands the writer `[data]` even for a list, and without a usable schema the
      writer gets `None`. */
  lemma ExportToBinArgsWritesOneRecord(s: ObjectState, data: Value, host: Host, avro: Avro)
    requires !data.PyNone?
    ensures var sch := if IsRecordSchema(s.schema) then s.schema else None;
      ExportToBinArgsStep(s, data, SchemaValue(PyNone), host, avro).1 ==
        match avro.writeContainer(sch, [data])
        case Raised(e) => Returned(Failed(e, InfosOf(s)))
        case Returned(bin) => Returned(Written(bin, InfosOf(s)))
  {
  }

  /** Binary Avro input that parses never looks at the schema argument. */
  lemma BinaryInputIgnoresSchema(data: Value, arg1: SchemaArg, arg2: SchemaArg, host: Host, avro: Avro)
    requires IsAvroBinary(data) && ParseBytesStep(Initial(data), data.bytes, avro).1.success
    ensures Constructed(data, arg1, host, avro) == Constructed(data, arg2, host, avro)
  {
  }

  /** ... and it leaves the object ok with origin `('binary', None)`, no binary cache, and the
      namespace of the embedded schema. */
  lemma BinaryInputState(data: Value, arg: SchemaArg, host: Host, avro: Avro)
    requires IsAvroBinary(data) && ParseBytesStep(Initial(data), data.bytes, avro).1.success
    requires NamespaceAttr(ParseBytesStep(Initial(data), data.bytes, avro).0.schema.value).Returned?
    ensures Constructed(data, arg, host, avro).Returned?
    ensures var st := Constructed(data, arg, host, avro).value;
      && st.ok && st.origin == Some(Origin("binary", None)) && st.binData == None
      && st.realdata == data && st.namespace == st.schema.value.namespace
  {
  }

  /** A dict is never loaded into `object_data`, so construction ends with the error of
      `ExportToJSON`, whatever the schema; the binary export alone can set ok. */
  lemma DictInputHasNoJson(data: Value, arg: SchemaArg, host: Host, avro: Avro)
    requires data.PyDict? && LegacyAvroTools.ParseSchema(arg, host, avro).Returned?
    ensures Constructed(data, arg, host, avro).Returned?
    ensures var st := Constructed(data, arg, host, avro).value;
      var ps := LegacyAvroTools.ParseSchema(arg, host, avro).value;
      && st.objectData == PyNone && st.jsonData == None && st.lastError == Some(JsonDataIsNone)
      && st.realdata == data
      && (st.ok <==> ps.Some? && avro.writeContainer(ps, [data]).Returned?)
  {
  }

  /** For input other than binary Avro, the object ends ok exactly when the loaded value is not
      `None`, the schema argument gives a record schema and writing the value succeeds. The
      error of `ExportToBin` is always overwritten by `ExportToJSON`. */
  lemma ConstructedOkIff(data: Value, arg: SchemaArg, host: Host, avro: Avro)
    requires !IsAvroBinary(data) && LegacyAvroTools.ParseSchema(arg, host, avro).Returned?
    ensures Constructed(data, arg, host, avro).Returned?
    ensures var st := Constructed(data, arg, host, avro).value;
      var d := Loaded(Initial(data), data, host).1;
      var ps := LegacyAvroTools.ParseSchema(arg, host, avro).value;
      && (st.ok <==> !d.PyNone? && ps.Some? && avro.writeContainer(ps, [d]).Returned?)
      && (!d.PyNone? ==> st.lastError == ExportToJsonStep(st, host, avro).0.lastError)
  {
    var d := Loaded(Initial(data), data, host).1;
    var st := Constructed(data, arg, host, avro).value;
    if !d.PyNone? {
      var s0 := Loaded(Initial(data), data, host).0;
      var ps := LegacyAvroTools.ParseSchema(arg, host, avro).value;
      var s1 := s0.(schema := ps);
      var s2 := if ps.Some? then s1.(namespace := ps.value.namespace) else s1;
      var mid := ExportToBinStep(s2.(realdata := d), avro).0;
      assert st == ExportToJsonStep(mid, host, avro).0;
      ExportToJsonIdempotent(mid, host, avro);
    }
  }

  /** `_parseschema` of a schema string has the three answers of the source: a record schema that
      the fetched text parses to is stored with `(True, 'OK')`, an exception of the parser gives
      `(False, str(e))`, and a schema of another kind gives `(False, 'NO SCHEMA')`; only the first
      changes the attributes. */
  lemma ParseSchemaArgOfText(s: ObjectState, t: string, host: Host, avro: Avro)
    ensures var parsed := avro.parse(LegacyAvroTools.FetchJson(t, host).content);
      ParseSchemaArgStep(s, SchemaValue(PyStr(t)), host, avro) ==
        if parsed.Raised? then (s, Returned(Reply(false, parsed.error)))
        else if parsed.value.kind == RecordKind then (s.(schema := Some(parsed.value)), Returned(Reply(true, "OK")))
        else (s, Returned(Reply(false, NoSchema)))
  {
  }

  /** A dict schema argument is handled as the text `json.dumps` makes of it. */
  lemma ParseSchemaArgOfDict(s: ObjectState, d: Value, host: Host, avro: Avro)
    requires d.PyDict? && host.dumps(d).Returned?
    ensures ParseSchemaArgStep(s, SchemaValue(d), host, avro)
         == ParseSchemaArgStep(s, SchemaValue(PyStr(host.dumps(d).value)), host, avro)
  {
  }

  /** `_parseschema` accepts exactly the schemas that `parse_schema` of src/avro_tools.py returns,
      and raises exactly when it does. */
  lemma ParseSchemaArgAgreesWithParseSchema(s: ObjectState, arg: SchemaArg, host: Host, avro: Avro)
    ensures var p := ParseSchemaArgStep(s, arg, host, avro);
      var ps := LegacyAvroTools.ParseSchema(arg, host, avro);
      && (p.1.Raised? <==> ps.Raised?)
      && (p.1.Returned? ==> (p.1.value.success <==> ps.value.Some?))
      && (p.1.Returned? && p.1.value.success ==> p.0.schema == ps.value)
  {
  }

  /** `_parsestr` decodes the fetched text. The schema argument is applied first (its answer is
      ignored, and an exception it lets escape is caught and becomes the reply). The text then
      goes to `from_json` under a record schema and to `json.loads` otherwise: the call succeeds
      exactly when that decoding returns, and `data` then holds the decoded value. */
  lemma ParseStrDecodes(s: ObjectState, text: string, arg: SchemaArg, host: Host, avro: Avro)
    ensures var f := LegacyAvroTools.FetchJson(text, host);
      var p := ParseSchemaArgStep(s, arg, host, avro);
      var s1 := if IsNoneArg(arg) then s else p.0;
      var obj := if IsRecordSchema(s1.schema) then avro.fromJson(s1.schema.value, f.content) else host.loads(f.content);
      var r := ParseStrStep(s, text, arg, host, avro);
      if !IsNoneArg(arg) && p.1.Raised? then r == (s.(ok := false), Reply(false, p.1.error))
      else
        && (r.1.success <==> obj.Returned?)
        && (obj.Returned? ==> r == (s1.(data := obj.value, origin := Some(Origin("text", f.origin)), ok := true), Reply(true, "OK")))
        && (obj.Raised? ==> r == (s1.(ok := false), Reply(false, obj.error)))
  {
  }

  /** A string `_parsestr` accepts updates the `data` attribute and origin but not the object
      data, so a later `ExportToJSON` still exports what the constructor loaded. */
  lemma ParseStrKeepsExports(s: ObjectState, text: string, arg: SchemaArg, host: Host, avro: Avro)
    ensures var st := ParseStrStep(s, text, arg, host, avro).0;
      st.objectData == s.objectData && st.jsonData == s.jsonData && st.binData == s.binData
      && st.realdata == s.realdata
  {
  }
}
