/**
 * The decoded JSON document the agent reads from and writes to
 * /etc/wireguard/wg0.json. Byte-level encoding is not modelled: a file is
 * seen through what encoding/json makes of it.
 */
module Json {
  import opened Wrappers

  /** A JSON value as encoding/json decodes it into an `any` target; objects
      become maps from member name to value. A number becomes a float64, held
      here as its 64 bits: the digits it was written with are gone once the
      file is decoded, and json.Marshal prints the float64 again. */
  datatype Value =
    | Null
    | Bool(b: bool)
    | Number(bits: bv64)
    | Str(s: string)
    | Array(items: seq<Value>)
    | Object(fields: map<string, Value>)

  /** What reading the configuration file gives. */
  datatype FileContents =
    | Unreadable          // os.ReadFile returned an error
    | NotJson             // json.Unmarshal rejects the bytes: not a JSON text, or
                          // a number float64 cannot hold (such as 1e400)
    | Parsed(v: Value)    // the decoded JSON text

  /** The Go `map[string]any` that json.Unmarshal fills. A JSON `null` sets it
      to nil: a nil map reads as empty, and storing into it panics. */
  datatype Body = NilMap | Members(m: map<string, Value>)

  /** Why decoding failed: the read, json.Unmarshal rejecting the bytes, or
      a top-level value that does not fit a map. */
  datatype DecodeError = ReadError | SyntaxError | TypeMismatch

  /** `os.ReadFile` followed by `json.Unmarshal(contents, &body)` with
      `body := make(map[string]any)`: an object fills the map, `null` leaves
      it nil, any other top-level value is a type error. */
  function DecodeBody(f: FileContents): (r: Result<Body, DecodeError>)
    ensures r.Success? <==> f.Parsed? && (f.v.Object? || f.v.Null?)
    ensures r == Success(NilMap) <==> f == Parsed(Null)
    ensures f.Parsed? && f.v.Object? ==> r == Success(Members(f.v.fields))
    ensures r == Failure(ReadError) <==> f.Unreadable?
    ensures r == Failure(SyntaxError) <==> f.NotJson?
  {
    match f
    case Unreadable => Failure(ReadError)
    case NotJson => Failure(SyntaxError)
    case Parsed(Object(m)) => Success(Members(m))
    case Parsed(Null) => Success(NilMap)
    case Parsed(_) => Failure(TypeMismatch)
  }

  /** `v.(string)` on a member of a decoded object: the text when the member
      is there and is a string. */
  function StringMember(m: map<string, Value>, key: string): (r: Option<string>)
    ensures r.Some? <==> key in m && m[key].Str?
    ensures r.Some? ==> m[key] == Str(r.value)
  {
    if key in m && m[key].Str? then Some(m[key].s) else None
  }

  /** `v, ok := body[key]`; a nil map has no members. */
  function Get(body: Body, key: string): (r: Option<Value>)
    ensures r.Some? <==> body.Members? && key in body.m
    ensures r.Some? ==> r.value == body.m[key]
  {
    match body
    case NilMap => None
    case Members(m) => if key in m then Some(m[key]) else None
  }
}
