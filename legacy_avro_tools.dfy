/** src/avro_tools.py: the fixed-order `fetch_json` and `parse_schema` of the older AvroObject.
    Its `is_avro_binary` has the same text as the newer one and is `AvroTools.IsAvroBinary`. */
module LegacyAvroTools {
  import opened PyValues
  import opened Host
  import opened AvroLib
  import opened AvroTools

  /** `os.path.exists(p) and os.path.isfile(p)`. */
  predicate IsExistingFile(source: string, host: Host) {
    !host.files(source).NotAFile?
  }

  /** Something in the `try` block raised: reading the file, the request, or `json.loads`. */
  predicate FetchRaises(source: string, host: Host) {
    if IsExistingFile(source, host) then host.files(source).Unreadable?
    else if IsUrl(source) then host.http(source).Raised?
    else host.loads(source).Raised?
  }

  /** `fetch_json`: a file, else a URL, else literal JSON. The first component is `True` even when
      an exception was caught; the exception shows only as origin `None` and its text as content. */
  function FetchJson(source: string, host: Host): (r: FetchResult)
    ensures r.success
    ensures r.origin == None <==> FetchRaises(source, host)
    ensures host.files(source).Readable? ==>
      r.content == host.files(source).content && r.origin == Some(host.abspath(source))
    ensures !IsExistingFile(source, host) && IsUrl(source) && host.http(source).Returned? ==>
      r.content == host.http(source).value && r.origin == Some(source)
    ensures !IsExistingFile(source, host) && !IsUrl(source) && host.loads(source).Returned? ==>
      r.content == source && r.origin == Some("string")
  {
    match host.files(source)
    case Readable(content) => FetchResult(true, content, Some(host.abspath(source)))
    case Unreadable(e) => FetchResult(true, e, None)
    case NotAFile =>
      if IsUrl(source) then
        match host.http(source)
        case Returned(body) => FetchResult(true, body, Some(source))
        case Raised(e) => FetchResult(true, e, None)
      else
        match host.loads(source)
        case Returned(_) => FetchResult(true, source, Some("string"))
        case Raised(e) => FetchResult(true, e, None)
  }

  /** The error text of a caught exception. */
  function FetchError(source: string, host: Host): string
    requires FetchRaises(source, host)
  {
    if IsExistingFile(source, host) then host.files(source).error
    else if IsUrl(source) then host.http(source).error
    else host.loads(source).error
  }

  /** A caller cannot tell failure from success by the first component: an exception yields the
      same shape as a fetched text, with the exception's message as content. */
  lemma FailureLooksLikeContent(source: string, host: Host)
    requires FetchRaises(source, host)
    ensures FetchJson(source, host) == FetchResult(true, FetchError(source, host), None)
  {
  }

  /** An existing file wins over a URL-shaped name and over JSON text. */
  lemma FileTakesPrecedence(source: string, host: Host)
    requires host.files(source).Readable?
    ensures FetchJson(source, host).content == host.files(source).content
    ensures FetchJson(source, host).origin == Some(host.abspath(source))
  {
  }

  /** `parse_schema`: a dict is serialised first (an exception of `json.dumps` propagates); a
      string is fetched and, since the fetch always reports success, its content is parsed; the
      result is the schema only when it is a `RecordSchema`. */
  function ParseSchema(arg: SchemaArg, host: Host, avro: Avro): (r: Call<Option<AvroSchema>>)
    ensures r.Raised? <==> arg.SchemaValue? && arg.v.PyDict? && host.dumps(arg.v).Raised?
    ensures r.Returned? && r.value.Some? ==> r.value.value.kind == RecordKind
    ensures arg.SchemaObject? ==> r == Returned(RecordOnly(arg))
    ensures arg.SchemaValue? && !arg.v.PyDict? && !arg.v.PyStr? ==> r == Returned(None)
    ensures arg.SchemaValue? && arg.v.PyDict? && host.dumps(arg.v).Returned? ==>
      r == ParseSchema(SchemaValue(PyStr(host.dumps(arg.v).value)), host, avro)
    decreases if arg.SchemaValue? && arg.v.PyDict? then 1 else 0
  {
    match DictDumped(arg, host)
    case Raised(e) => Raised(e)
    case Returned(a) =>
      if a.SchemaValue? && a.v.PyStr? then
        var fetch := FetchJson(a.v.s, host);
        if fetch.success then
          match avro.parse(fetch.content)
          case Returned(s) => Returned(RecordOnly(SchemaObject(s)))
          case Raised(_) => Returned(None)
        else Returned(None)
      else Returned(RecordOnly(a))
  }

  /** A schema string names what is parsed: a file's content, a URL's body, or the string itself. */
  lemma SchemaTextSources(text: string, host: Host, avro: Avro)
    requires !FetchRaises(text, host)
    ensures var parsed := avro.parse(FetchJson(text, host).content);
      ParseSchema(SchemaValue(PyStr(text)), host, avro)
        == Returned(if parsed.Returned? && parsed.value.kind == RecordKind then Some(parsed.value) else None)
    ensures !IsExistingFile(text, host) && !IsUrl(text) ==> FetchJson(text, host).content == text
  {
  }

  /** An unresolvable schema string reaches the parser as the text of the fetch exception; the
      result is `None` unless that text happens to parse to a record schema. */
  lemma UnresolvedSchemaParsesErrorText(text: string, host: Host, avro: Avro)
    requires FetchRaises(text, host)
    ensures var parsed := avro.parse(FetchError(text, host));
      ParseSchema(SchemaValue(PyStr(text)), host, avro)
        == Returned(if parsed.Returned? && parsed.value.kind == RecordKind then Some(parsed.value) else None)
  {
    FailureLooksLikeContent(text, host);
  }
}
