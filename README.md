# py_avroobject in Dafny

py_avroobject wraps a piece of data in an `AvroObject`: it takes the data in one of several forms (an
Avro object container, other bytes, a JSON string, a file name, a URL, a dict or a list), records where
it came from and whether it is usable, and exports it as JSON text or as an Avro container, caching each
export. The repository holds two variants of that class and of its helpers:

- `avro_object/`, built on fastavro. Strings are resolved through a registry of fetch methods
  (`add_fetch_method`, `reset_fetch_methods`, `fetch_json`), and a schema derivation
  (`create_schema`) sits beside the class.
- `src/`, built on the `avro` package. Its `fetch_json` has a fixed order: file, then URL, then
  literal JSON. Its class has the `Parse`/`Export...` method family, and `src/avro_schema.py` holds
  its own `create_schema`.

The model in Dafny:

| module | file | models |
|---|---|---|
| `PyValues` | `py_values.dfy` | Python values (JSON-shaped data plus `bytes`), `None`, truthiness, the outcome of a call (`Returned` or `Raised` with the exception text), the schema dict `create_schema` builds |
| `Host` | `host.dfy` | the file system, HTTP, `os.path.abspath`, `json.loads`/`json.dumps`, UTF-8 decoding and user-registered fetch methods, as total functions supplied by the caller |
| `AvroLib` | `avro_lib.dfy` | the `avro` package and `avro_json_serializer`, as such functions; the kinds of parsed schema and their `namespace` attribute |
| `AvroTools` | `avro_tools.dfy` | `avro_object/avro_tools.py`: `is_avro_binary`, the URL pattern, the fetch registry as the class `FetchRegistry`, `fetch_json`, `parse_schema` |
| `FastAvroObject` | `fast_avro_object.dfy` | `avro_object/avro_object.py`: the class `AvroObject`, its exports and `create_schema` |
| `LegacyAvroTools` | `legacy_avro_tools.dfy` | `src/avro_tools.py`: `fetch_json` and `parse_schema` |
| `LegacyAvroSchema` | `legacy_avro_schema.dfy` | `src/avro_schema.py`: `create_schema` |
| `LegacyAvroObject` | `legacy_avro_object.dfy` | `src/avro_object.py`: the class `AvroObject` |

Each `AvroObject` class is paired with a pure datatype of its attributes and one pure step function
per method. Every method has an imperative body, with the loops the source has. Its `ensures`
equates the new attributes and the result with the step applied to the old attributes. The fetch
registry `AvroTools.FetchRegistry` has no step functions: its methods state their new list
directly against the old one, and its `FetchJson` is proved equal to the function `Fetched`. The properties are proved
as lemmas about the steps. The read-only properties `data`, `origin`, `ok` and `last_error` of
the fastavro class (avro_object/avro_object.py:134-148) and `LastError` of the older class are the
public fields of the Dafny classes.

The registry code of `avro_object/avro_tools.py` appears again, with the same text, in
`avro_object/avro_object.py:200-272`; there it is joined by `reset_fetch_methods` and called at
import time. Both are modelled once, by `AvroTools.FetchRegistry`. `is_avro_binary` has the same
text in `avro_object/avro_tools.py:83-88` and `src/avro_tools.py:38-43`, and
`src/avro_object.py:328-333` delegates to it. All of these are `AvroTools.IsAvroBinary`.

Two source behaviours are reproduced as written:

- `self.realdata is list` at src/avro_object.py:170 and `data is not list` at line 208 compare a value
  with the type object `list`, so both exports always hand the writer one record.
- The `fetch_json` of `src/avro_tools.py` reports success even when it caught an exception.

The lemmas spell out where each behaviour leads: `ExportedBinReadsBack`,
`ExportToBinArgsWritesOneRecord`, `FailureLooksLikeContent` and `UnresolvedSchemaParsesErrorText`.

## Model

| member | source | states |
|---|---|---|
| `AvroLib.NamespaceAttr` | src/avro_object.py:55-59 | reading `namespace` raises exactly for an unnamed schema class, with the message `'<class>' object has no attribute 'namespace'`, and otherwise yields the schema's namespace |
| `AvroTools.HeaderPrefixLayout` | avro_object/avro_tools.py:83-88 | the 16 compared bytes are the container magic `Obj\x01`, the zig-zag count 2 of the metadata map, and the Avro string "avro.codec" |
| `AvroTools.AvroBinaryIsPrefixTest` | src/avro_tools.py:38-43 | every accepted value starts with the magic, and for 16 bytes or more, appending bytes never changes the answer |
| `AvroTools.SchemaFirstContainerRejected` | src/avro_object.py:328-333 | a container header whose first metadata key is `avro.schema` starts with the magic and is still rejected |
| `AvroTools.UrlTailIsCharClass` | avro_object/avro_tools.py:71-73 | the repeated group of the URL pattern matches exactly the non-empty strings over letters, digits, '!' and the range '$'..'_' (the `%XX` alternative adds nothing) |
| `AvroTools.UrlIsSchemeAndChars` | avro_object/avro_object.py:263-265 | `fullmatch` accepts exactly "http://" or "https://" followed by one or more characters of that class |
| `AvroTools.UrlAccepted` | avro_object/avro_tools.py:71-76 | "https://a.io/x" and "http://h/%41" are URLs |
| `AvroTools.UrlRejected` | avro_object/avro_tools.py:71-80 | "http://", "http://a b", "https://a/#b" and "ftp://a.io" are not |
| `AvroTools.FetchJsonFileResult` | avro_object/avro_tools.py:47-61 | success exactly for a readable file, with its content; a non-file gives "File not found: " and the source |
| `AvroTools.FetchJsonUrlResult` | avro_object/avro_tools.py:64-80 | success exactly for a URL whose request returns, with the body; a non-URL gives "Source is not an URL: " and the source |
| `AvroTools.Fetched` | avro_object/avro_tools.py:29-44 | a success always carries the unchanged source and origin "string"; every failure has origin `None`; an empty registry fails with the unbound-local message |
| `AvroTools.RunSkipsFailures` | avro_object/avro_tools.py:36-39 | a run of failing methods passes control to the next one, carrying the last failure's message |
| `AvroTools.FetchedFirstSuccess` | avro_object/avro_object.py:228-234 | when earlier methods fail and method k succeeds, the answer is the JSON check of method k's message, whatever later methods would do |
| `AvroTools.FetchedMethodRaises` | avro_object/avro_tools.py:35-44 | when earlier methods fail and method k raises, the answer is `(False, str(e), None)` |
| `AvroTools.FetchedAllFail` | avro_object/avro_tools.py:40-42 | when every method fails, the source itself is JSON-checked |
| `AvroTools.DefaultRegistryResolution` | avro_object/avro_object.py:221-253 | with the default registry a literal that is neither file nor URL is checked as itself, while a readable file is checked by its content but answered with its path |
| `AvroTools.FetchRegistry.constructor` | avro_object/avro_tools.py:117-118 | the import-time registry is exactly `[fetch_json_file, fetch_json_url]`, with no duplicate and every method registrable |
| `AvroTools.FetchRegistry.AddFetchMethod` | avro_object/avro_tools.py:14-26 | the answer is the signature test (one parameter, return annotation `tuple`); an accepted new method is appended, and otherwise the list is unchanged |
| `AvroTools.FetchRegistry.Reset` | avro_object/avro_object.py:215-218 | the registry becomes exactly the two built-ins |
| `AvroTools.FetchRegistry.FetchJson` | avro_object/avro_object.py:221-236 | the loop with `break` computes `Fetched` over the current registry |
| `AvroTools.RegisterTwice` | avro_object/avro_object.py:200-212 | registering the same method twice gives the same answer both times and leaves at most one copy |
| `AvroTools.ParseSchema` | avro_object/avro_tools.py:91-114 | it raises exactly when dumping a dict raises; a dict that dumps is parsed as its `json.dumps` text; any schema returned is a record; a schema object is returned iff it is a record; other kinds give `None` |
| `AvroTools.ParseSchemaOfText` | avro_object/avro_tools.py:101-105 | a schema string is parsed as itself, and only when it resolves through the registry |
| `FastAvroObject.AvroObject.constructor` | avro_object/avro_object.py:41-101 | the attributes after `__init__` are `Ingested` of the data, the parsed schema and the registry |
| `FastAvroObject.AvroObject.ToJson` | avro_object/avro_object.py:106-120 | the new attributes and the answer are `ToJsonStep` of the old attributes |
| `FastAvroObject.AvroObject.ToAvro` | avro_object/avro_object.py:122-132 | the new attributes and the answer are `ToAvroStep` of the old attributes |
| `FastAvroObject.New` | avro_object/avro_object.py:36-48 | construction raises exactly when `parse_schema` of a given schema raises, and otherwise yields a fresh object in the `Constructed` state |
| `FastAvroObject.ExportTwice` | avro_object/avro_object.py:106-132 | a second `to_json` and a second `to_avro` answer as the first ones did |
| `FastAvroObject.ContainerInput` | avro_object/avro_object.py:54-65 | container bytes give origin 'binary_avro', ok, the embedded schema, and data `None`, the single record, or the list of records |
| `FastAvroObject.UnreadableContainer` | avro_object/avro_object.py:54-72 | an unreadable container leaves no data and no ok, and an error prefixed "Avro binary error: " |
| `FastAvroObject.DecodedBytesAreText` | avro_object/avro_object.py:66-94 | UTF-8 bytes end exactly as their text does, except that the origin stays 'binary_string' |
| `FastAvroObject.UndecodableBytes` | avro_object/avro_object.py:66-72 | bytes that do not decode change only the origin, and set an error prefixed "String decoding error: " |
| `FastAvroObject.UnresolvedText` | avro_object/avro_object.py:74-80 | an unresolved string leaves the fetch message as last error, with no data and no ok, and validation never runs |
| `FastAvroObject.ResolvedText` | avro_object/avro_object.py:82-101 | `_json_data` is the text and the data its parse; ok iff there is no schema or the data is non-`None` and validates; a validation failure keeps the data and records "Schema error: " |
| `FastAvroObject.NativeInput` | avro_object/avro_object.py:90-101 | a dict or list is the data itself, with origin 'dict' or 'list', and ok and error as for text |
| `FastAvroObject.OtherInput` | avro_object/avro_object.py:96-101 | any other input leaves every attribute as initialised |
| `FastAvroObject.IngestedConsistent` | avro_object/avro_object.py:41-101 | after construction ok never goes with an error, the Avro cache is empty, and filled JSON text implies a known origin |
| `FastAvroObject.FilePathIsNotLoaded` | avro_object/avro_object.py:75-88 | a path to a JSON file is itself given to `json.loads`, so construction ends with "JSON parsing error: " and no data |
| `FastAvroObject.ToJsonCacheHit` | avro_object/avro_object.py:107-108 | without ok, or with a filled cache, `to_json` returns the cache and changes nothing, whatever the encoders would do |
| `FastAvroObject.ToJsonEncodes` | avro_object/avro_object.py:110-120 | a fresh `to_json` of an ok object caches and returns `json.dumps` of the data without a schema and the JSON writer's text over the records otherwise; an encoder exception changes nothing |
| `FastAvroObject.ToJsonIdempotent` | avro_object/avro_object.py:106-120 | a second `to_json` returns the first answer and changes nothing further |
| `FastAvroObject.TextExportsVerbatim` | avro_object/avro_object.py:84-108 | text input without a schema exports the resolved text verbatim |
| `FastAvroObject.ToAvroCacheHit` | avro_object/avro_object.py:123-124 | without ok, with a filled cache, or without a schema, `to_avro` returns the cache (possibly `None`) and changes nothing |
| `FastAvroObject.ToAvroWritesRecords` | avro_object/avro_object.py:126-132 | otherwise a non-list is written as a one-record list and a list as its items, and the bytes are cached |
| `FastAvroObject.ToAvroIdempotent` | avro_object/avro_object.py:122-132 | a second `to_avro` returns the first answer and changes nothing further |
| `FastAvroObject.ExportsOnlyFillCaches` | avro_object/avro_object.py:106-148 | each export changes only its own cache, and a filled cache is never replaced |
| `FastAvroObject.ReingestWritten` | avro_object/avro_object.py:54-132 | under a codec that reads back what it writes, re-ingesting `to_avro`'s bytes reproduces the data exactly unless it is a list of at most one element |
| `FastAvroObject.CreateSchema` | avro_object/avro_object.py:151-197 | `None` iff the data is not a dict or the name is empty; otherwise a 'record' with one field per key in order, a `None` field for a non-dict or an empty key, nested namespace 'namespace.test', and `doc` only when non-empty |
| `FastAvroObject.CreateSchemaCoversDicts` | avro_object/avro_object.py:190-195 | the derived schema has one record for every dict reachable through non-empty keys |
| `FastAvroObject.FieldsCoverEntries` | avro_object/avro_object.py:190-193 | the same count, entry by entry |
| `LegacyAvroTools.FetchJson` | src/avro_tools.py:10-35 | always success; origin `None` exactly when an exception was caught; a readable file gives its content and absolute path, a URL its body and itself, literal JSON itself and "string" |
| `LegacyAvroTools.FailureLooksLikeContent` | src/avro_tools.py:34-35 | a caught exception gives `(True, str(e), None)` |
| `LegacyAvroTools.FileTakesPrecedence` | src/avro_tools.py:18-22 | an existing readable file wins over a name that is also a URL or JSON |
| `LegacyAvroTools.ParseSchema` | src/avro_tools.py:46-69 | it raises exactly when dumping a dict raises; a dict that dumps is parsed as its `json.dumps` text; any schema returned is a record; a schema object is returned iff it is a record; other kinds give `None` |
| `LegacyAvroTools.SchemaTextSources` | src/avro_tools.py:56-60 | the parser receives the fetched content, which is the string itself for literal JSON |
| `LegacyAvroTools.UnresolvedSchemaParsesErrorText` | src/avro_tools.py:58-64 | an unresolvable schema string reaches the parser as the exception text |
| `LegacyAvroSchema.DerivedSchema` | src/avro_schema.py:5-35 | `None` iff the value is unclassified or the name empty; a returned schema is a 'record' of a dict, with the namespace, the name and one field per key |
| `LegacyAvroSchema.DerivedFields` | src/avro_schema.py:31-33 | the loop keeps the fields already built and appends one field per remaining entry |
| `LegacyAvroSchema.DerivedFieldsInOrder` | src/avro_schema.py:31-33 | the field the loop appends for entry i is `create_schema` of entry i's value under its key and 'avro.example', in key order, by induction |
| `LegacyAvroSchema.DerivedSchemaFields` | src/avro_schema.py:20-35 | field i of a derived record is `create_schema(value_i, key_i, 'avro.example')` |
| `LegacyAvroSchema.DerivedRaisesIff` | src/avro_schema.py:20-33 | `create_schema` returns iff every classified value under a non-empty key along the way is a dict |
| `LegacyAvroSchema.FieldsRaiseIff` | src/avro_schema.py:31-33 | the loop returns iff every remaining entry is derivable |
| `LegacyAvroSchema.NestedNumberRaises` | src/avro_schema.py:16-32 | `{'a': 1}` raises the `'int' object has no attribute 'items'` error |
| `LegacyAvroSchema.NestedNoneIsNoneField` | src/avro_schema.py:20-33 | `{'a': None}` gives a record with one `None` field |
| `LegacyAvroSchema.CreateSchema` | src/avro_schema.py:5-35 | the recursive method with its fields loop computes `DerivedSchema` |
| `LegacyAvroObject.ExportToJsonStep` | src/avro_object.py:102-125 | only the error and the JSON cache change; the answer is `None` exactly when an error is left; a filled cache is returned; no object data gives 'ExportToJSON: data is None' |
| `LegacyAvroObject.ExportToBinStep` | src/avro_object.py:148-181 | only error, cache and ok change; both guards precede the cache; the answer is `None` exactly when an error is left; ok becomes true only by a fresh write |
| `LegacyAvroObject.ParseSchemaArgStep` | src/avro_object.py:301-326 | it raises exactly when dumping a dict raises; success stores a record schema with 'OK'; every other outcome leaves the attributes alone, and other kinds give 'NO SCHEMA' |
| `LegacyAvroObject.ParseBytesStep` | src/avro_object.py:223-244 | success exactly when the container reads and its schema parses, setting the schema and ok; a failure only clears ok |
| `LegacyAvroObject.ParseStrStep` | src/avro_object.py:246-270 | only `data`, origin, ok and schema change; success sets ok and origin ('text', fetch origin); failure clears ok and keeps data and origin |
| `LegacyAvroObject.AvroObject.constructor` | src/avro_object.py:32-44 | the attributes as initialised, with `original_data` and `realdata` the input |
| `LegacyAvroObject.AvroObject.Initialize` | src/avro_object.py:46-70 | the rest of `__init__` raises exactly when `Constructed` does, and otherwise leaves its attributes |
| `LegacyAvroObject.AvroObject.ExportToJson` | src/avro_object.py:108-125 | the method computes `ExportToJsonStep` |
| `LegacyAvroObject.AvroObject.ExportToBin` | src/avro_object.py:154-181 | the method, with its record loop, computes `ExportToBinStep` |
| `LegacyAvroObject.AvroObject.ParseSchemaArg` | src/avro_object.py:307-326 | the method computes `ParseSchemaArgStep` |
| `LegacyAvroObject.AvroObject.ParseBytes` | src/avro_object.py:225-244 | the method, with its datum loop, computes `ParseBytesStep` |
| `LegacyAvroObject.AvroObject.ParseStr` | src/avro_object.py:248-270 | the method computes `ParseStrStep` |
| `LegacyAvroObject.AvroObject.Parse` | src/avro_object.py:90-100 | the method computes `ParseStep` |
| `LegacyAvroObject.AvroObject.ExportToBinArgs` | src/avro_object.py:183-221 | the method computes `ExportToBinArgsStep` |
| `LegacyAvroObject.New` | src/avro_object.py:32-70 | construction raises exactly when `Constructed` does, and otherwise yields a fresh object in that state |
| `LegacyAvroObject.ParseRejectsOtherTypes` | src/avro_object.py:95-100 | anything but bytes or str clears ok and gives `(False, 'Paramêtro inválido')`, changing nothing else |
| `LegacyAvroObject.ParseBytesCollapse` | src/avro_object.py:229-241 | no record gives an empty list, one the record, more the list; the embedded schema, origin ('binary', None) and ok are set |
| `LegacyAvroObject.ExportToJsonEncodes` | src/avro_object.py:108-125 | a fresh export of non-`None` object data caches and returns `avro_json_serializer`'s text under a record schema and `json.dumps` otherwise; an encoder exception becomes the error 'ExportToJSON:' + str(e) |
| `LegacyAvroObject.ExportToJsonIdempotent` | src/avro_object.py:108-125 | a second `ExportToJSON` returns and leaves what the first did |
| `LegacyAvroObject.ExportToBinIdempotent` | src/avro_object.py:154-178 | a second `ExportToBin` returns and leaves what the first did |
| `LegacyAvroObject.ExportedBinReadsBack` | src/avro_object.py:166-178 | the whole `realdata` is one record, so a faithful codec gives it back through `_parsebytes` exactly, a list included |
| `LegacyAvroObject.ExportToBinArgsWritesOneRecord` | src/avro_object.py:202-212 | `ExportToBin_` writes `[data]` even for a list, under the schema only when it is a record schema |
| `LegacyAvroObject.BinaryInputIgnoresSchema` | src/avro_object.py:55-59 | for Avro binary input that parses, the schema argument makes no difference |
| `LegacyAvroObject.BinaryInputState` | src/avro_object.py:55-59 | such input ends ok with origin ('binary', None), no binary cache and the embedded namespace |
| `LegacyAvroObject.DictInputHasNoJson` | src/avro_object.py:46-70 | a dict never reaches `object_data`, so construction ends with 'ExportToJSON: data is None'; ok iff the binary export wrote it |
| `LegacyAvroObject.ConstructedOkIff` | src/avro_object.py:63-70 | for non-binary input, ok iff the loaded value is non-`None`, the schema is a record schema and writing succeeds; the last error is always the JSON export's |
| `LegacyAvroObject.ParseSchemaArgOfText` | src/avro_object.py:310-326 | a schema string gives (True, 'OK') and stores the schema when its fetched text parses to a record, (False, str(e)) when parsing raises, and (False, 'NO SCHEMA') for another kind |
| `LegacyAvroObject.ParseSchemaArgOfDict` | src/avro_object.py:307-308 | a dict schema argument is answered as its `json.dumps` text |
| `LegacyAvroObject.ParseSchemaArgAgreesWithParseSchema` | src/avro_object.py:301-326 | `_parseschema` raises exactly when `parse_schema` of src/avro_tools.py does, succeeds exactly when that returns a schema, and then stores that schema |
| `LegacyAvroObject.ParseStrDecodes` | src/avro_object.py:246-270 | after the schema argument is applied (an escaping exception becomes the reply), the call succeeds exactly when `from_json` under a record schema, or `json.loads` otherwise, returns for the fetched text, and `data` is then the decoded value |
| `LegacyAvroObject.ParseStrKeepsExports` | src/avro_object.py:248-270 | `_parsestr` leaves the object data, both caches and `realdata` unchanged |

## Left out

- The Avro and JSON codecs (fastavro, `avro.datafile`, `avro.io`, `avro.schema.Parse`, `avro_json_serializer`, `json`) are parameters: total functions with no properties assumed. Results that depend on codec behaviour are stated under explicit hypotheses (`ReingestWritten`, `ExportedBinReadsBack`).
- File and network I/O: `os.path.isfile`/`exists`, `open`, `requests.get`, `os.path.abspath` and `tempfile.SpooledTemporaryFile` are parameters too. A file's state is one answer per path.
- `inspect.signature`: a fetch method carries its parameter count and whether it is annotated `tuple`, or no signature when none can be taken.
- `_parsefile` (src/avro_object.py:272-299): file I/O only.
- `ExportToText_` (src/avro_object.py:127-146), `__str__` and the formatting of `getSchemaInfos`: the string formatting is not modelled. `getSchemaInfos` appears only as the namespace/origin pair in `ExportToBin_`'s result.
- The `type` and `name` attributes of the older class: they are always `None`.
- `writer.close()` and `tmp.close()` are folded into the write function. An exception raised only by them, after `bin_data` and `ok` were set, is not distinguished.
- The fastavro schema object is always truthy. `not self._schema` in `to_avro` is therefore modelled as "no schema".
- A parsed `RecordSchema` of the `avro` package is truthy at src/avro_object.py:64.
- `print(e)` in both `parse_schema` functions (avro_object/avro_tools.py:108, src/avro_tools.py:63): console output is not modelled; the exception is otherwise swallowed as modelled.
- The unbound-local message of an empty registry uses the wording of Python 3.7-3.10.
- The test files, example scripts, `setup.py` and the C# wrappers are not part of this model.
- A non-`str` `doc` argument of the fastavro `create_schema` is treated like `None`, since the Dafny parameter is an optional string.
- `FastAvroObject.AvroObject.constructor`: it starts after line 48. It takes the schema already parsed by `parse_schema`, and `FastAvroObject.New` models that call and its exception.
- `LegacyAvroObject.AvroObject.Initialize`: it only runs right after the constructor. When it raises, the attributes it leaves are not stated, because the object is then discarded.
- Concurrency and module reloading: the registry is one object passed explicitly.
