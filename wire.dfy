/** Values that cross the boundaries of the duplex voice stream: raw PCM bytes,
    decoded JSON values, the Python exceptions the event loops catch, the messages
    written to the WebSocket, and the collaborators the stream cannot see (the JSON
    and base64 library calls, the database back end, the socket's send). */
module Wire {

  newtype byte = b: int | 0 <= b < 256

  type Bytes = seq<byte>

  datatype Option<+T> = None | Some(value: T)

  datatype Result<+T, +E> = Ok(value: T) | Err(error: E)

  /** A value as Python's json module decodes it. */
  datatype Json =
    | JNull
    | JBool(b: bool)
    | JInt(i: int)
    | JFloat(r: real)
    | JStr(str: string)
    | JArray(items: seq<Json>)
    | JObject(fields: map<string, Json>)

  /** `type(v).__name__` of the Python value a JSON value decodes to. */
  function TypeName(j: Json): string
  {
    match j
    case JNull => "NoneType"
    case JBool(_) => "bool"
    case JInt(_) => "int"
    case JFloat(_) => "float"
    case JStr(_) => "str"
    case JArray(_) => "list"
    case JObject(_) => "dict"
  }

  /** The exceptions raised on the paths of the stream that are modelled. Where the
      message comes from a library or from the back end it is carried verbatim. */
  datatype Exception =
    | JsonDecodeError(msg: string)          // json.loads on malformed text
    | Base64Error(msg: string)              // base64.b64decode on a malformed string
    | KeyError(key: string)                 // d[key] on a dict without key
    | TypeError(msg: string)
    | AttributeError(typeName: string, attr: string)
    | NameError(name: string)               // a call to a name the module never defines
    | Raised(msg: string)                   // whatever a back-end handler lets escape
    | ConnectionError(msg: string)          // ws.recv() failing

  /** `str(e)` for each exception: the message it was raised with, or for the three
      the interpreter raises itself, its fixed wording around the key or name. */
  function Str(e: Exception): (r: string)
    ensures e.JsonDecodeError? || e.Base64Error? || e.TypeError? || e.Raised? || e.ConnectionError? ==> r == e.msg
    ensures e.KeyError? ==> r == "'" + e.key + "'"
    ensures e.AttributeError? ==> r == "'" + e.typeName + "' object has no attribute '" + e.attr + "'"
    ensures e.NameError? ==> r == "name '" + e.name + "' is not defined"
  {
    match e
    case JsonDecodeError(m) => m
    case Base64Error(m) => m
    case KeyError(k) => "'" + k + "'"
    case TypeError(m) => m
    case AttributeError(t, a) => "'" + t + "' object has no attribute '" + a + "'"
    case NameError(n) => "name '" + n + "' is not defined"
    case Raised(m) => m
    case ConnectionError(m) => m
  }

  /** `d.get(key, default)` on a dict. */
  function GetOr(d: map<string, Json>, key: string, default: Json): (v: Json)
    ensures key in d ==> v == d[key]
    ensures key !in d ==> v == default
  {
    if key in d then d[key] else default
  }

  /** `v[key]` with a string key: a dict lookup, or the error Python raises. */
  function Subscript(v: Json, key: string): (r: Result<Json, Exception>)
    ensures r.Ok? <==> v.JObject? && key in v.fields
    ensures r.Ok? ==> r.value == v.fields[key]
  {
    match v
    case JObject(d) => if key in d then Ok(d[key]) else Err(KeyError(key))
    case JArray(_) => Err(TypeError("list indices must be integers or slices, not str"))
    case JStr(_) => Err(TypeError("string indices must be integers, not 'str'"))
    case _ => Err(TypeError("'" + TypeName(v) + "' object is not subscriptable"))
  }

  /** A call the function-call dispatcher makes on the database back end: the
      handler's name and the positional argument values it passes. */
  datatype Invocation = Invocation(name: string, args: seq<Json>)

  /** The collaborators of the stream, each an opaque function:
      - parse: json.loads on a text, or the decoder's error message;
      - b64decode: base64.b64decode on a string (RFC 4648 section 4), or its error message;
      - b64encode: base64.b64encode of raw bytes, as text;
      - backend: the database operation a call reaches, returning its string result or
        the message of an exception it lets escape (it turns only database errors into
        strings itself);
      - refuses: whether send attempt number k on the socket raises. */
  datatype Env = Env(
    parse: string -> Result<Json, string>,
    b64decode: string -> Result<Bytes, string>,
    b64encode: Bytes -> string,
    backend: Invocation -> Result<string, string>,
    refuses: nat -> bool)

  /** `json.loads(v)` applied to a decoded JSON value: only a string can be parsed. */
  function Loads(v: Json, env: Env): (r: Result<Json, Exception>)
    ensures !v.JStr? ==> r.Err? && r.error.TypeError?
    ensures v.JStr? ==> (r.Ok? <==> env.parse(v.str).Ok?)
    ensures v.JStr? && env.parse(v.str).Ok? ==> r == Ok(env.parse(v.str).value)
    ensures v.JStr? && env.parse(v.str).Err? ==> r == Err(JsonDecodeError(env.parse(v.str).error))
  {
    match v
    case JStr(s) =>
      (match env.parse(s)
       case Ok(j) => Ok(j)
       case Err(m) => Err(JsonDecodeError(m)))
    case _ => Err(TypeError("the JSON object must be str, bytes or bytearray, not " + TypeName(v)))
  }

  /** `base64.b64decode(v)` applied to a decoded JSON value. */
  function B64Decode(v: Json, env: Env): (r: Result<Bytes, Exception>)
    ensures !v.JStr? ==> r.Err?
    ensures v.JStr? && env.b64decode(v.str).Ok? ==> r == Ok(env.b64decode(v.str).value)
    ensures v.JStr? && env.b64decode(v.str).Err? ==> r == Err(Base64Error(env.b64decode(v.str).error))
  {
    match v
    case JStr(s) =>
      (match env.b64decode(s)
       case Ok(b) => Ok(b)
       case Err(m) => Err(Base64Error(m)))
    case _ => Err(TypeError("argument should be a bytes-like object or ASCII string, not '" + TypeName(v) + "'"))
  }

  /** The messages the stream writes to the WebSocket, after json.dumps. */
  datatype Outgoing =
    | SessionUpdate                                   // the static session configuration
    | AudioAppend(audio: string)                      // input_audio_buffer.append
    | CallOutput(callId: Json, output: string)        // conversation.item.create / function_call_output
    | ResponseCreate                                  // response.create

  /** The socket as the stream sees it: the messages it has accepted, in order, and
      the number of send attempts made so far (which indexes `Env.refuses`). */
  datatype Link = Link(sent: seq<Outgoing>, attempts: nat)

  /** One `ws.send(m)`: the attempt either delivers m or raises. */
  function Send(l: Link, m: Outgoing, refuses: nat -> bool): (r: (Link, bool))
    ensures r.0.attempts == l.attempts + 1
    ensures r.1 <==> !refuses(l.attempts)
    ensures r.1 <==> r.0.sent == l.sent + [m]
    ensures !r.1 <==> r.0.sent == l.sent
  {
    if refuses(l.attempts) then (l.(attempts := l.attempts + 1), false)
    else (Link(l.sent + [m], l.attempts + 1), true)
  }
}
