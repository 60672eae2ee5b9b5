/** avro_object/avro_tools.py: the container magic-prefix test, the URL recogniser, the registry of
    fetch methods with `fetch_json`, and `parse_schema`. avro_object/avro_object.py carries the same
    registry code (plus `reset_fetch_methods`); both are modelled by `FetchRegistry`. */
module AvroTools {
  import opened PyValues
  import opened Host
  import opened AvroLib

  // ---------------------------------------------------------------------------------------------
  // Container magic prefix

  /** "Obj" followed by the format version 1: the magic that opens every Avro object container file
      ("Object Container Files" in the Apache Avro specification). */
  const Magic: seq<byte> := [0x4F, 0x62, 0x6A, 0x01]

  /** The 16 bytes `is_avro_binary` compares with: `b'Obj\x01\x04\x14avro.codec'`. */
  const HeaderPrefix: seq<byte> :=
    [0x4F, 0x62, 0x6A, 0x01, 0x04, 0x14, 0x61, 0x76, 0x72, 0x6F, 0x2E, 0x63, 0x6F, 0x64, 0x65, 0x63]

  /** `is_avro_binary`: a `bytes` value of more than 15 bytes whose first 16 are `HeaderPrefix`. */
  predicate IsAvroBinary(v: Value) {
    v.PyBytes? && |v.bytes| > 15 && v.bytes[..16] == HeaderPrefix
  }

  /** Avro's zig-zag mapping of a long onto the naturals. */
  function ZigZag(n: int): nat {
    if n >= 0 then 2 * n else -2 * n - 1
  }

  /** Little-endian base-128 variable-length encoding. */
  function Varint(z: nat): (r: seq<byte>)
    ensures 0 < |r|
    decreases z
  {
    if z < 128 then [z] else [z % 128 + 128] + Varint(z / 128)
  }

  /** The binary encoding of an Avro `long`. */
  function EncodeLong(n: int): seq<byte> {
    Varint(ZigZag(n))
  }

  /** The bytes of an ASCII string. */
  function AsciiBytes(s: string): (r: seq<byte>)
    requires forall i :: 0 <= i < |s| ==> s[i] as int < 128
    ensures |r| == |s|
  {
    seq(|s|, i requires 0 <= i < |s| => s[i] as int as byte)
  }

  /** The binary encoding of an Avro `string` made of ASCII characters: its length, then its bytes. */
  function EncodeAsciiString(s: string): seq<byte>
    requires forall i :: 0 <= i < |s| ==> s[i] as int < 128
  {
    EncodeLong(|s|) + AsciiBytes(s)
  }

  /** The 16 bytes are the magic and the start of the header's metadata map: a block of 2 entries
      whose first key is the string "avro.codec". Only the first four bytes are fixed by the
      container format; the rest assumes a writer that puts exactly two metadata entries in one
      block and writes `avro.codec` first. */
  lemma HeaderPrefixLayout()
    ensures HeaderPrefix == Magic + EncodeLong(2) + EncodeAsciiString("avro.codec")
  {
    assert EncodeLong(2) == [0x04];
    assert EncodeLong(10) == [0x14];
    var codec := AsciiBytes("avro.codec");
    assert codec == [0x61, 0x76, 0x72, 0x6F, 0x2E, 0x63, 0x6F, 0x64, 0x65, 0x63];
  }

  /** Whatever `is_avro_binary` accepts starts with the container magic, and the test only looks at
      a prefix: appending bytes never changes its answer. */
  lemma {:induction false} AvroBinaryIsPrefixTest(b: seq<byte>, tail: seq<byte>)
    ensures IsAvroBinary(PyBytes(b)) ==> b[..4] == Magic
    ensures IsAvroBinary(PyBytes(b)) == IsAvroBinary(PyBytes(b + tail)) || |b| < 16
  {
    if |b| >= 16 {
      assert (b + tail)[..16] == b[..16];
    }
    if IsAvroBinary(PyBytes(b)) {
      assert b[..4] == b[..16][..4];
    }
  }

  /** A container whose writer put `avro.schema` first in its metadata map starts with the magic
      but is not recognised. */
  lemma SchemaFirstContainerRejected()
    ensures var b := Magic + EncodeLong(2) + EncodeAsciiString("avro.schema");
      b[..4] == Magic && !IsAvroBinary(PyBytes(b))
  {
    var b := Magic + EncodeLong(2) + EncodeAsciiString("avro.schema");
    assert EncodeLong(11) == [0x16];
    assert b[5] == 0x16;
    assert b[..16][5] != HeaderPrefix[5];
  }

  // ---------------------------------------------------------------------------------------------
  // The URL pattern of fetch_json_url:
  //   http[s]?://(?:[a-zA-Z]|[0-9]|[$-_@.&+]|[!*\(\),]|(?:%[0-9a-fA-F][0-9a-fA-F]))+
  // used with fullmatch.

  predicate IsAsciiLetter(c: char) {
    'a' <= c <= 'z' || 'A' <= c <= 'Z'
  }

  predicate IsDigit(c: char) {
    '0' <= c <= '9'
  }

  predicate IsHexDigit(c: char) {
    IsDigit(c) || 'a' <= c <= 'f' || 'A' <= c <= 'F'
  }

  /** A character matched by one of the four one-character alternatives of the group. The class
      `[$-_@.&+]` is the range from '$' to '_' together with '@', '.', '&' and '+'. */
  predicate IsSingleUrlToken(c: char) {
    IsAsciiLetter(c) || IsDigit(c) || ('$' <= c <= '_') || c in "@.&+" || c in "!*(),"
  }

  /** `s` is one or more repetitions of the group: a one-character alternative, or a `%XX` escape. */
  predicate UrlTail(s: string)
    decreases |s|
  {
    && |s| > 0
    && ((IsSingleUrlToken(s[0]) && (|s| == 1 || UrlTail(s[1..])))
        || (|s| >= 3 && s[0] == '%' && IsHexDigit(s[1]) && IsHexDigit(s[2]) && (|s| == 3 || UrlTail(s[3..]))))
  }

  /** `pattern.fullmatch(source)` in `fetch_json_url`. */
  predicate IsUrl(s: string) {
    || (|s| >= 7 && s[..7] == "http://" && UrlTail(s[7..]))
    || (|s| >= 8 && s[..8] == "https://" && UrlTail(s[8..]))
  }

  /** The characters the group accepts, as a plain class: letters, digits, '!' and the range
      '$'..'_', which already holds '@', '.', '&', '+', '*', '(', ')', ',' and the '%' of an escape. */
  predicate IsUrlChar(c: char) {
    IsAsciiLetter(c) || IsDigit(c) || c == '!' || ('$' <= c <= '_')
  }

  predicate AllUrlChars(s: string) {
    forall i :: 0 <= i < |s| ==> IsUrlChar(s[i])
  }

  /** The `%XX` alternative adds nothing: the repeated group matches exactly the non-empty strings
      over `IsUrlChar`. */
  lemma {:induction false} UrlTailIsCharClass(s: string)
    ensures UrlTail(s) <==> (|s| > 0 && AllUrlChars(s))
    decreases |s|
  {
    if |s| > 1 {
      UrlTailIsCharClass(s[1..]);
      assert forall i :: 1 <= i < |s| ==> s[i] == s[1..][i - 1];
    }
    if |s| > 3 {
      UrlTailIsCharClass(s[3..]);
      assert forall i :: 3 <= i < |s| ==> s[i] == s[3..][i - 3];
    }
  }

  /** `fetch_json_url` accepts exactly "http://" or "https://" followed by at least one character
      of the class. */
  lemma UrlIsSchemeAndChars(s: string)
    ensures IsUrl(s) <==>
      || (|s| > 7 && s[..7] == "http://" && AllUrlChars(s[7..]))
      || (|s| > 8 && s[..8] == "https://" && AllUrlChars(s[8..]))
  {
    if |s| >= 7 { UrlTailIsCharClass(s[7..]); }
    if |s| >= 8 { UrlTailIsCharClass(s[8..]); }
  }

  lemma UrlAccepted()
    ensures IsUrl("https://a.io/x")
    ensures IsUrl("http://h/%41")
  {
    var t1, t2 := "a.io/x", "h/%41";
    assert "https://a.io/x"[8..] == t1;
    assert AllUrlChars(t1) by {
      assert t1[0] == 'a' && t1[1] == '.' && t1[2] == 'i' && t1[3] == 'o' && t1[4] == '/' && t1[5] == 'x';
    }
    UrlIsSchemeAndChars("https://a.io/x");
    assert "http://h/%41"[7..] == t2;
    assert AllUrlChars(t2) by {
      assert t2[0] == 'h' && t2[1] == '/' && t2[2] == '%' && t2[3] == '4' && t2[4] == '1';
    }
    UrlIsSchemeAndChars("http://h/%41");
  }

  lemma UrlRejected()
    ensures !IsUrl("http://")
    ensures !IsUrl("http://a b")
    ensures !IsUrl("https://a/#b")
    ensures !IsUrl("ftp://a.io")
  {
    UrlIsSchemeAndChars("http://a b");
    assert "http://a b"[7..][1] == ' ';
    UrlIsSchemeAndChars("https://a/#b");
    assert "https://a/#b"[8..][2] == '#';
    assert "ftp://a.io"[..7][0] != "http://"[0];
    assert "ftp://a.io"[..8][0] != "https://"[0];
  }

  // ---------------------------------------------------------------------------------------------
  // Fetch methods and their registry

  /** What `inspect.signature` reports: the number of parameters, and whether the return
      annotation is the class `tuple` itself. */
  datatype Signature = Signature(parameters: nat, returnsTuple: bool)

  /** A fetch method: one of the two built-ins, or a user function identified by `id` whose
      signature is `signature` (`None` when `inspect.signature` raises on it, as for a value that
      is not callable). Two user functions are the same object exactly when they are equal here. */
  datatype FetchMethod =
    | FetchJsonFile
    | FetchJsonUrl
    | UserMethod(id: nat, signature: Option<Signature>)

  /** The registry both modules build at import time: `[fetch_json_file, fetch_json_url]`. */
  const DefaultMethods: seq<FetchMethod> := [FetchJsonFile, FetchJsonUrl]

  function SignatureOf(m: FetchMethod): Option<Signature> {
    match m
    case FetchJsonFile => Some(Signature(1, true))
    case FetchJsonUrl => Some(Signature(1, true))
    case UserMethod(_, sig) => sig
  }

  /** The test of `add_fetch_method`: a signature can be taken, it has exactly one parameter and
      its return annotation is `tuple`. */
  predicate Registrable(m: FetchMethod) {
    var sig := SignatureOf(m);
    sig.Some? && sig.value.parameters == 1 && sig.value.returnsTuple
  }

  predicate NoDuplicates(s: seq<FetchMethod>) {
    forall i, j :: 0 <= i < j < |s| ==> s[i] != s[j]
  }

  /** `fetch_json_file`: the file's content when the source names a readable file. */
  function FetchJsonFileResult(source: string, host: Host): (r: (bool, string))
    ensures r.0 <==> host.files(source).Readable?
    ensures r.0 ==> r.1 == host.files(source).content
    ensures host.files(source).NotAFile? ==> r.1 == "File not found: " + source
  {
    match host.files(source)
    case NotAFile => (false, "File not found: " + source)
    case Readable(content) => (true, content)
    case Unreadable(e) => (false, e)
  }

  /** `fetch_json_url`: the response body when the source fullmatches the URL pattern and the
      request succeeds. */
  function FetchJsonUrlResult(source: string, host: Host): (r: (bool, string))
    ensures r.0 <==> IsUrl(source) && host.http(source).Returned?
    ensures r.0 ==> r.1 == host.http(source).value
    ensures !IsUrl(source) ==> r.1 == "Source is not an URL: " + source
  {
    if IsUrl(source) then
      match host.http(source)
      case Returned(body) => (true, body)
      case Raised(e) => (false, e)
    else
      (false, "Source is not an URL: " + source)
  }

  /** `success, message = method(source)`. */
  function Invoke(m: FetchMethod, source: string, host: Host): Call<(bool, string)> {
    match m
    case FetchJsonFile => Returned(FetchJsonFileResult(source, host))
    case FetchJsonUrl => Returned(FetchJsonUrlResult(source, host))
    case UserMethod(id, _) => host.custom(id, source)
  }

  /** Where the loop of `fetch_json` leaves `success` and `message`: never assigned (an empty
      registry), assigned by the last method called, or an exception out of a call. */
  datatype LoopEnd = NeverAssigned | Stopped(success: bool, message: string) | Threw(error: string)

  /** The loop of `fetch_json` from method `i` on, `acc` being what earlier iterations left. */
  function RunFrom(modes: seq<FetchMethod>, i: nat, source: string, host: Host, acc: LoopEnd): LoopEnd
    requires i <= |modes|
    decreases |modes| - i
  {
    if i == |modes| then acc
    else
      match Invoke(modes[i], source, host)
      case Raised(e) => Threw(e)
      case Returned(out) =>
        if out.0 then Stopped(true, out.1) else RunFrom(modes, i + 1, source, host, Stopped(false, out.1))
  }

  /** The `(success, content, origin)` triple that `fetch_json` returns. */
  datatype FetchResult = FetchResult(success: bool, content: string, origin: Option<string>)

  /** `str(e)` of the UnboundLocalError that reading `success` raises after an empty loop
      (wording of Python 3.7 to 3.10). */
  const UnboundSuccess: string := "local variable 'success' referenced before assignment"

  /** `fetch_json` over the registry `modes`. A success hands back the source itself, not the text
      the successful method fetched; every failure carries the exception text and origin `None`. */
  function Fetched(modes: seq<FetchMethod>, source: string, host: Host): (r: FetchResult)
    ensures r.success ==> r.content == source && r.origin == Some("string")
    ensures !r.success ==> r.origin == None
    ensures modes == [] ==> r == FetchResult(false, UnboundSuccess, None)
  {
    match RunFrom(modes, 0, source, host, NeverAssigned)
    case Threw(e) => FetchResult(false, e, None)
    case NeverAssigned => FetchResult(false, UnboundSuccess, None)
    case Stopped(success, message) => JsonChecked(if success then message else source, source, host)
  }

  /** The answer of `fetch_json` when the JSON check is applied to `text`. */
  function JsonChecked(text: string, source: string, host: Host): FetchResult {
    match host.loads(text)
    case Raised(e) => FetchResult(false, e, None)
    case Returned(_) => FetchResult(true, source, Some("string"))
  }

  predicate FailsAt(modes: seq<FetchMethod>, j: nat, source: string, host: Host)
    requires j < |modes|
  {
    var out := Invoke(modes[j], source, host);
    out.Returned? && !out.value.0
  }

  /** The loop from `i` on, when methods `i` .. `k - 1` return failure: the run resumes at `k`
      with the message of method `k - 1`. */
  lemma {:induction false} RunSkipsFailures(modes: seq<FetchMethod>, i: nat, k: nat, source: string, host: Host, acc: LoopEnd)
    requires i < k <= |modes|
    requires forall j :: i <= j < k ==> FailsAt(modes, j, source, host)
    ensures FailsAt(modes, k - 1, source, host)
    ensures RunFrom(modes, i, source, host, acc)
         == RunFrom(modes, k, source, host, Stopped(false, Invoke(modes[k - 1], source, host).value.1))
    decreases k - i
  {
    var out := Invoke(modes[i], source, host);
    assert FailsAt(modes, i, source, host);
    if i + 1 < k {
      RunSkipsFailures(modes, i + 1, k, source, host, Stopped(false, out.value.1));
    }
  }

  /** Methods are tried in registration order and the first success ends the loop: when methods
      before `k` fail and method `k` succeeds with `message`, `fetch_json` JSON-checks `message`,
      whatever the methods after `k` would do. */
  lemma FetchedFirstSuccess(modes: seq<FetchMethod>, k: nat, source: string, host: Host)
    requires k < |modes|
    requires forall j :: 0 <= j < k ==> FailsAt(modes, j, source, host)
    requires Invoke(modes[k], source, host).Returned? && Invoke(modes[k], source, host).value.0
    ensures Fetched(modes, source, host) == JsonChecked(Invoke(modes[k], source, host).value.1, source, host)
  {
    if k > 0 {
      RunSkipsFailures(modes, 0, k, source, host, NeverAssigned);
    }
  }

  /** When methods before `k` fail and method `k` raises, `fetch_json` reports that exception. */
  lemma FetchedMethodRaises(modes: seq<FetchMethod>, k: nat, source: string, host: Host)
    requires k < |modes|
    requires forall j :: 0 <= j < k ==> FailsAt(modes, j, source, host)
    requires Invoke(modes[k], source, host).Raised?
    ensures Fetched(modes, source, host) == FetchResult(false, Invoke(modes[k], source, host).error, None)
  {
    if k > 0 {
      RunSkipsFailures(modes, 0, k, source, host, NeverAssigned);
    }
  }

  /** When every method fails, the source itself is JSON-checked: a literal JSON text resolves
      even though no method accepted it. */
  lemma FetchedAllFail(modes: seq<FetchMethod>, source: string, host: Host)
    requires |modes| > 0
    requires forall j :: 0 <= j < |modes| ==> FailsAt(modes, j, source, host)
    ensures Fetched(modes, source, host) == JsonChecked(source, source, host)
  {
    RunSkipsFailures(modes, 0, |modes|, source, host, NeverAssigned);
  }

  /** With the default registry, a JSON literal that names no file and is no URL resolves to
      itself; a path to a readable file is accepted only when the file's text is JSON, and the
      triple then carries the path, not the file's text. */
  lemma DefaultRegistryResolution(source: string, host: Host)
    ensures host.files(source).NotAFile? && !IsUrl(source) ==>
      Fetched(DefaultMethods, source, host) == JsonChecked(source, source, host)
    ensures host.files(source).Readable? ==>
      Fetched(DefaultMethods, source, host) == JsonChecked(host.files(source).content, source, host)
  {
    if host.files(source).NotAFile? && !IsUrl(source) {
      FetchedAllFail(DefaultMethods, source, host);
    }
    if host.files(source).Readable? {
      FetchedFirstSuccess(DefaultMethods, 0, source, host);
    }
  }

  /** The module-level list `_json_fetch_modes` with `add_fetch_method`, `reset_fetch_methods`
      and `fetch_json`. */
  class FetchRegistry {
    var modes: seq<FetchMethod>

    /** Every registered method passed the signature test, and none is registered twice. */
    ghost predicate Valid()
      reads this
    {
      NoDuplicates(modes) && forall i :: 0 <= i < |modes| ==> Registrable(modes[i])
    }

    /** The import-time loop that appends `fetch_json_file` and `fetch_json_url`. */
    constructor ()
      ensures Valid() && modes == DefaultMethods
    {
      modes := [];
      new;
      for i := 0 to |DefaultMethods|
        invariant modes == DefaultMethods[..i]
      {
        modes := modes + [DefaultMethods[i]];
      }
    }

    /** Accepts a method only when its signature passes the test, and never appends one that is
        already registered. */
    method AddFetchMethod(m: FetchMethod) returns (accepted: bool)
      requires Valid()
      modifies this
      ensures Valid()
      ensures accepted == Registrable(m)
      ensures modes == if accepted && m !in old(modes) then old(modes) + [m] else old(modes)
    {
      var sig := SignatureOf(m);
      if sig.None? {
        return false;
      }
      if sig.value.parameters != 1 {
        return false;
      }
      if !sig.value.returnsTuple {
        return false;
      }
      if m !in modes {
        modes := modes + [m];
      }
      return true;
    }

    /** Clears the list and appends the two built-ins again. */
    method Reset()
      modifies this
      ensures Valid() && modes == DefaultMethods
    {
      modes := [];
      for i := 0 to |DefaultMethods|
        invariant modes == DefaultMethods[..i]
      {
        modes := modes + [DefaultMethods[i]];
      }
    }

    /** Tries the methods in order, stops at the first success, then JSON-checks the fetched text
        (or the source, when nothing succeeded). */
    method FetchJson(source: string, host: Host) returns (r: FetchResult)
      ensures r == Fetched(modes, source, host)
    {
      var i := 0;
      var acc := NeverAssigned;
      while i < |modes|
        invariant 0 <= i <= |modes|
        invariant acc.NeverAssigned? <==> i == 0
        invariant !acc.Threw?
        invariant RunFrom(modes, 0, source, host, NeverAssigned) == RunFrom(modes, i, source, host, acc)
      {
        var out := Invoke(modes[i], source, host);
        if out.Raised? {
          return FetchResult(false, out.error, None);
        }
        var success, message := out.value.0, out.value.1;
        acc := Stopped(success, message);
        if success {
          break;
        }
        i := i + 1;
      }
      assert RunFrom(modes, 0, source, host, NeverAssigned) == acc;
      if acc.NeverAssigned? {
        return FetchResult(false, UnboundSuccess, None);
      }
      var parsed := host.loads(if acc.success then acc.message else source);
      if parsed.Raised? {
        return FetchResult(false, parsed.error, None);
      }
      return FetchResult(true, source, Some("string"));
    }
  }

  /** Two registrations of the same accepted method leave one copy; a rejected one changes nothing. */
  method RegisterTwice(reg: FetchRegistry, m: FetchMethod) returns (first: bool, second: bool)
    requires reg.Valid()
    modifies reg
    ensures reg.Valid()
    ensures first == second == Registrable(m)
    ensures reg.modes == if Registrable(m) && m !in old(reg.modes) then old(reg.modes) + [m] else old(reg.modes)
  {
    first := reg.AddFetchMethod(m);
    second := reg.AddFetchMethod(m);
  }

  // ---------------------------------------------------------------------------------------------
  // parse_schema

  /** The argument after `if isinstance(schema, dict): schema = json.dumps(schema)`; the dump is
      outside the `try`, so its exception leaves `parse_schema`. */
  function DictDumped(arg: SchemaArg, host: Host): Call<SchemaArg> {
    if arg.SchemaValue? && arg.v.PyDict? then
      match host.dumps(arg.v)
      case Returned(text) => Returned(SchemaValue(PyStr(text)))
      case Raised(e) => Raised(e)
    else Returned(arg)
  }

  /** The final `isinstance(schema, RecordSchema)` test. */
  function RecordOnly(arg: SchemaArg): Option<AvroSchema> {
    if arg.SchemaObject? && arg.schema.kind == RecordKind then Some(arg.schema) else None
  }

  /** `parse_schema` of avro_object/avro_tools.py. For a string the parser receives `fetch[1]`,
      which on success is the string itself. */
  function ParseSchema(arg: SchemaArg, modes: seq<FetchMethod>, host: Host, avro: Avro): (r: Call<Option<AvroSchema>>)
    ensures r.Raised? <==> arg.SchemaValue? && arg.v.PyDict? && host.dumps(arg.v).Raised?
    ensures r.Returned? && r.value.Some? ==> r.value.value.kind == RecordKind
    ensures arg.SchemaObject? ==> r == Returned(RecordOnly(arg))
    ensures arg.SchemaValue? && !arg.v.PyDict? && !arg.v.PyStr? ==> r == Returned(None)
    ensures arg.SchemaValue? && arg.v.PyDict? && host.dumps(arg.v).Returned? ==>
      r == ParseSchema(SchemaValue(PyStr(host.dumps(arg.v).value)), modes, host, avro)
    decreases if arg.SchemaValue? && arg.v.PyDict? then 1 else 0
  {
    match DictDumped(arg, host)
    case Raised(e) => Raised(e)
    case Returned(a) =>
      if a.SchemaValue? && a.v.PyStr? then
        var fetch := Fetched(modes, a.v.s, host);
        if fetch.success then
          match avro.parse(fetch.content)
          case Returned(s) => Returned(RecordOnly(SchemaObject(s)))
          case Raised(_) => Returned(None)
        else Returned(None)
      else Returned(RecordOnly(a))
  }

  /** A schema string is parsed as itself: the result is the parsed record schema when the string
      resolves through the registry and parses to a record, and `None` otherwise. */
  lemma ParseSchemaOfText(text: string, modes: seq<FetchMethod>, host: Host, avro: Avro)
    ensures ParseSchema(SchemaValue(PyStr(text)), modes, host, avro) ==
      Returned(if Fetched(modes, text, host).success && avro.parse(text).Returned?
                  && avro.parse(text).value.kind == RecordKind
               then Some(avro.parse(text).value) else None)
  {
  }
}
