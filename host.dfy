/** The services the helpers use from the Python runtime and the outside world, as oracles:
    the file system, HTTP, the `json` module, UTF-8 decoding and user-registered fetch methods.
    Each oracle is a total function, so a call with the same argument always gives the same answer. */
module Host {
  import opened PyValues

  /** What `os.path.isfile(p)` and a subsequent `open(p).read()` find at a path. */
  datatype FileState =
    | NotAFile                       // isfile is false (missing, a directory, ...)
    | Readable(content: string)      // a file whose text was read
    | Unreadable(error: string)      // a file, but opening or reading it raised

  datatype Host = Host(
    files: string -> FileState,
    /** `requests.get(url=u).text`, or the exception the request raised. */
    http: string -> Call<string>,
    /** `os.path.abspath(p)`. */
    abspath: string -> string,
    /** `json.loads(t)`. */
    loads: string -> Call<Value>,
    /** `json.dumps(v)`. */
    dumps: Value -> Call<string>,
    /** `b.decode('utf-8')`. */
    utf8: seq<byte> -> Call<string>,
    /** What the user-registered fetch method with this identity returns when called on a source:
        its `(success, message)` pair, or the exception raised by the call or by unpacking its
        result into two names. */
    custom: (nat, string) -> Call<(bool, string)>)
}
