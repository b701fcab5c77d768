/** The function-call dispatcher: a `response.function_call_arguments.done` event
    names a back-end operation, carries a call identifier and a JSON-encoded argument
    object; the dispatcher reads the arguments it needs (with a default per key),
    runs the operation and writes its string result back under the same call
    identifier, followed by a request for the remote side to continue. */
module Dispatch {
  import opened Wire

  /** What an exception turns into when it reaches the dispatcher's catch. */
  const ERROR_PREFIX: string := "執行函式時發生錯誤: "

  /** The dispatcher's name table: for each of its fourteen names, the argument keys
      it reads, in the order they are passed to the handler, each with the default
      `.get` supplies when the key is missing (JNull where `.get` has no default). */
  function Params(name: string): (r: Option<seq<(string, Json)>>)
    ensures r.Some? <==> name in TOOL_NAMES
    ensures r.Some? ==> (r.value == [] <==> name == "list_patients")
    ensures r.Some? ==> forall i, j :: 0 <= i < j < |r.value| ==> r.value[i].0 != r.value[j].0
    ensures r.Some? ==> forall i :: 0 <= i < |r.value| && r.value[i].0 in {"patient_id", "session_id"} ==>
              r.value[i].1 == JInt(0)
  {
    if name == "start_conversation" then Some([("patient_id", JInt(0))])
    else if name == "add_patient" then Some([("name", JStr("")), ("age", JInt(0)), ("gender", JStr(""))])
    else if name == "add_patient_record" then
      Some([("patient_id", JInt(0)), ("height", JInt(0)), ("weight", JInt(0)), ("diet", JStr("")),
            ("exercise", JStr("")), ("inconvenience", JStr("")), ("sensor_data", JObject(map[]))])
    else if name == "update_patient_record" then
      Some([("patient_id", JInt(0)), ("record_id", JInt(0)), ("height", JNull), ("weight", JNull),
            ("diet", JNull), ("exercise", JNull), ("inconvenience", JNull), ("sensor_data", JNull)])
    else if name == "query_patient" then Some([("patient_id", JInt(0))])
    else if name == "list_patients" then Some([])
    else if name == "insert_doctor_report" then
      Some([("patient_id", JInt(0)), ("feedback", JStr("")), ("evaluation", JStr("")),
            ("reviewed", JBool(false)), ("notes", JStr(""))])
    else if name == "insert_feedback" then Some([("patient_id", JInt(0)), ("feedback", JStr(""))])
    else if name == "get_patient_feedback" then Some([("patient_id", JInt(0))])
    else if name == "get_doctor_reports" then Some([("patient_id", JInt(0))])
    else if name == "get_conversation_sessions" then Some([("patient_id", JInt(0))])
    else if name == "get_patient_conversation" then Some([("patient_id", JInt(0)), ("session_id", JInt(0))])
    else if name == "end_conversation" then Some([("session_id", JInt(0))])
    else if name == "delete_patient" then Some([("patient_id", JInt(0))])
    else None
  }

  /** The fourteen operations the session configuration offers the remote side. */
  const TOOL_NAMES: set<string> := {
    "start_conversation", "add_patient", "add_patient_record", "update_patient_record",
    "query_patient", "list_patients", "insert_doctor_report", "insert_feedback",
    "get_patient_feedback", "get_doctor_reports", "get_conversation_sessions",
    "get_patient_conversation", "end_conversation", "delete_patient"}

  /** Four names of the table call functions the module never defines. */
  predicate Undefined(name: string)
  {
    name == "start_conversation" || name == "update_patient_record" ||
    name == "get_conversation_sessions" || name == "get_patient_conversation"
  }

  /** Every undefined handler has an entry in the table, so a call to it gets past
      the name lookup and raises. */
  lemma UndefinedInTable(name: string)
    requires Undefined(name)
    ensures Params(name).Some?
  {
    if name == "start_conversation" {
    } else if name == "update_patient_record" {
    } else if name == "get_conversation_sessions" {
    } else {
    }
  }

  /** The fields of the event, with the defaults `.get` applies. */
  function NameOf(event: map<string, Json>): Json { GetOr(event, "name", JStr("")) }
  function CallIdOf(event: map<string, Json>): Json { GetOr(event, "call_id", JStr("")) }
  function ArgumentsOf(event: map<string, Json>): Json { GetOr(event, "arguments", JStr("{}")) }

  predicate Known(name: Json)
  {
    name.JStr? && Params(name.str).Some?
  }

  /** Reading the handler's arguments with `.get`: nothing is read for a handler
      without parameters; otherwise the decoded arguments must be a dict, and each
      value is the one under its key or the default. */
  function Extract(params: seq<(string, Json)>, args: Json): (r: Result<seq<Json>, Exception>)
    ensures params == [] ==> r == Ok([])
    ensures params != [] && !args.JObject? ==> r == Err(AttributeError(TypeName(args), "get"))
    ensures args.JObject? ==> r.Ok? && |r.value| == |params|
    ensures args.JObject? ==> forall i :: 0 <= i < |params| ==>
              r.value[i] == GetOr(args.fields, params[i].0, params[i].1)
  {
    if params == [] then Ok([])
    else if args.JObject? then
      Ok(seq(|params|, i requires 0 <= i < |params| => GetOr(args.fields, params[i].0, params[i].1)))
    else Err(AttributeError(TypeName(args), "get"))
  }

  /** Calling the handler: an undefined name raises NameError before the back end is
      reached; otherwise the back end returns a string or raises. */
  function Invoke(name: string, values: seq<Json>, env: Env): (r: Result<string, Exception>)
    ensures Undefined(name) ==> r == Err(NameError(name))
    ensures !Undefined(name) ==> (r.Ok? <==> env.backend(Invocation(name, values)).Ok?)
    ensures !Undefined(name) && r.Ok? ==> r.value == env.backend(Invocation(name, values)).value
    ensures !Undefined(name) && r.Err? ==> r.error == Raised(env.backend(Invocation(name, values)).error)
  {
    if Undefined(name) then Err(NameError(name))
    else match env.backend(Invocation(name, values))
      case Ok(r) => Ok(r)
      case Err(m) => Err(Raised(m))
  }

  /** The result handed to `send_function_call_result`: the output string and the
      call identifier it answers. */
  datatype CallResult = CallResult(callId: Json, output: string)

  function Failure(callId: Json, e: Exception): CallResult
  {
    CallResult(callId, ERROR_PREFIX + Str(e))
  }

  /** `handle_function_call` up to the send: None when no branch of the table runs.
      The arguments are decoded before the name is looked at, so undecodable
      arguments are answered even under an unknown name. Any answer carries the
      event's call identifier. */
  function Answer(event: map<string, Json>, env: Env): (a: Option<CallResult>)
    ensures a.Some? ==> a.value.callId == CallIdOf(event)
    ensures a.None? <==> Loads(ArgumentsOf(event), env).Ok? && !Known(NameOf(event))
  {
    var name, callId := NameOf(event), CallIdOf(event);
    match Loads(ArgumentsOf(event), env)
    case Err(e) => Some(Failure(callId, e))
    case Ok(args) =>
      if !Known(name) then None
      else match Extract(Params(name.str).value, args)
        case Err(e) => Some(Failure(callId, e))
        case Ok(values) =>
          match Invoke(name.str, values, env)
          case Ok(r) => Some(CallResult(callId, r))
          case Err(e) => Some(Failure(callId, e))
  }

  /** Undecodable arguments (malformed text, or not a string at all) are answered with
      the decoding error, whatever the name. */
  lemma BadArgumentsAnswered(event: map<string, Json>, env: Env)
    requires Loads(ArgumentsOf(event), env).Err?
    ensures Answer(event, env) == Some(Failure(CallIdOf(event), Loads(ArgumentsOf(event), env).error))
  {
  }

  /** A call to one of the four undefined handlers is answered with the NameError,
      once the arguments decode to a dict. */
  lemma UndefinedHandlerAnswered(event: map<string, Json>, env: Env, n: string)
    requires NameOf(event) == JStr(n) && Undefined(n)
    requires Loads(ArgumentsOf(event), env).Ok? && Loads(ArgumentsOf(event), env).value.JObject?
    ensures Answer(event, env) == Some(CallResult(CallIdOf(event), ERROR_PREFIX + "name '" + n + "' is not defined"))
  {
    UndefinedInTable(n);
    var args := Loads(ArgumentsOf(event), env).value;
    var values := Extract(Params(n).value, args).value;
    assert Invoke(n, values, env) == Err(NameError(n));
    assert ERROR_PREFIX + Str(NameError(n)) == ERROR_PREFIX + "name '" + n + "' is not defined";
  }

  /** A defined handler is called with the values read under its keys (defaults for
      missing keys); its string result is the output, and an exception it raises
      becomes the error output. */
  lemma DefinedHandlerAnswered(event: map<string, Json>, env: Env, n: string)
    requires NameOf(event) == JStr(n) && Params(n).Some? && !Undefined(n)
    requires Loads(ArgumentsOf(event), env).Ok? && Loads(ArgumentsOf(event), env).value.JObject?
    ensures var args := Loads(ArgumentsOf(event), env).value.fields;
            var ps := Params(n).value;
            var call := Invocation(n, seq(|ps|, i requires 0 <= i < |ps| => GetOr(args, ps[i].0, ps[i].1)));
            Answer(event, env) == Some(match env.backend(call)
                                       case Ok(r) => CallResult(CallIdOf(event), r)
                                       case Err(m) => CallResult(CallIdOf(event), ERROR_PREFIX + m))
  {
    var args := Loads(ArgumentsOf(event), env).value;
    var ps := Params(n).value;
    var vals := Extract(ps, args).value;
    assert vals == seq(|ps|, i requires 0 <= i < |ps| => GetOr(args.fields, ps[i].0, ps[i].1));
  }

  /** Arguments that decode to something other than a dict fail on the first `.get`
      of every handler that reads an argument. */
  lemma NonDictArgumentsAnswered(event: map<string, Json>, env: Env, n: string)
    requires NameOf(event) == JStr(n) && Params(n).Some? && n != "list_patients"
    requires Loads(ArgumentsOf(event), env).Ok? && !Loads(ArgumentsOf(event), env).value.JObject?
    ensures var v := Loads(ArgumentsOf(event), env).value;
            Answer(event, env) == Some(CallResult(CallIdOf(event), ERROR_PREFIX + "'" + TypeName(v) + "' object has no attribute 'get'"))
  {
    var v := Loads(ArgumentsOf(event), env).value;
    OnlyListPatientsReadsNothing(n);
    assert Extract(Params(n).value, v) == Err(AttributeError(TypeName(v), "get"));
    assert ERROR_PREFIX + Str(AttributeError(TypeName(v), "get"))
        == ERROR_PREFIX + "'" + TypeName(v) + "' object has no attribute 'get'";
  }

  /** `list_patients` reads no argument, so it reaches the back end with no values
      whatever the arguments decode to. */
  lemma ListPatientsIgnoresArguments(event: map<string, Json>, env: Env)
    requires NameOf(event) == JStr("list_patients") && Loads(ArgumentsOf(event), env).Ok?
    ensures Answer(event, env) == Some(match env.backend(Invocation("list_patients", []))
                                       case Ok(r) => CallResult(CallIdOf(event), r)
                                       case Err(m) => CallResult(CallIdOf(event), ERROR_PREFIX + m))
  {
    assert Params("list_patients") == Some([]);
    assert !Undefined("list_patients");
  }

  /** Every handler but `list_patients` reads at least one argument. */
  lemma OnlyListPatientsReadsNothing(n: string)
    requires Params(n).Some? && n != "list_patients"
    ensures Params(n).value != []
  {
  }

  /** An event with none of the three fields reads name "", call_id "" and arguments
      "{}"; since "" names no handler, nothing is answered. */
  lemma EmptyEventIgnored(env: Env)
    requires env.parse("{}") == Ok(JObject(map[]))
    ensures NameOf(map[]) == JStr("") && CallIdOf(map[]) == JStr("") && ArgumentsOf(map[]) == JStr("{}")
    ensures Answer(map[], env) == None
  {
  }

  /** `send_function_call_result`: the output message first; `response.create` only
      if that send went through. */
  function SendResult(l: Link, result: string, callId: Json, refuses: nat -> bool): (r: Link)
    ensures l.sent <= r.sent
    ensures r.sent[|l.sent|..] in {[], [CallOutput(callId, result)], [CallOutput(callId, result), ResponseCreate]}
    ensures r.sent == l.sent <==> refuses(l.attempts)
    ensures ResponseCreate in r.sent[|l.sent|..] <==> !refuses(l.attempts) && !refuses(l.attempts + 1)
  {
    var (l1, ok) := Send(l, CallOutput(callId, result), refuses);
    if !ok then
      assert l1.sent[|l.sent|..] == [];
      l1
    else
      var (l2, ok2) := Send(l1, ResponseCreate, refuses);
      assert l1.sent == l.sent + [CallOutput(callId, result)];
      assert ok2 ==> l2.sent[|l.sent|..] == [CallOutput(callId, result), ResponseCreate];
      assert !ok2 ==> l2.sent[|l.sent|..] == [CallOutput(callId, result)];
      l2
  }

  /** `handle_function_call` as a whole: at most one output per event, always under
      the event's call identifier, and nothing at all when no branch ran. */
  function Respond(l: Link, event: map<string, Json>, env: Env): (r: Link)
    ensures l.sent <= r.sent && |r.sent| <= |l.sent| + 2
    ensures Answer(event, env).None? ==> r == l
    ensures forall i :: |l.sent| <= i < |r.sent| && r.sent[i].CallOutput? ==>
              i == |l.sent| && r.sent[i] == CallOutput(CallIdOf(event), Answer(event, env).value.output)
    ensures |r.sent| == |l.sent| + 2 ==> r.sent[|l.sent| + 1] == ResponseCreate
    ensures Answer(event, env).Some? ==>
              r == SendResult(l, Answer(event, env).value.output, CallIdOf(event), env.refuses)
  {
    match Answer(event, env)
    case None => l
    case Some(c) => SendResult(l, c.output, c.callId, env.refuses)
  }

  /** Every event naming one of the fourteen operations is answered: when the socket
      accepts the send, exactly one output follows, under the event's call identifier. */
  lemma KnownNameAnswered(l: Link, event: map<string, Json>, env: Env)
    requires Known(NameOf(event)) && !env.refuses(l.attempts)
    ensures Answer(event, env).Some?
    ensures |Respond(l, event, env).sent| > |l.sent|
    ensures Respond(l, event, env).sent[|l.sent|] == CallOutput(CallIdOf(event), Answer(event, env).value.output)
  {
    var r := Respond(l, event, env);
    var c := Answer(event, env).value;
    assert r.sent[|l.sent|..] in {[CallOutput(c.callId, c.output)], [CallOutput(c.callId, c.output), ResponseCreate]};
    assert r.sent[|l.sent|..][0] == r.sent[|l.sent|];
  }

  /** The `get_doctor_reports` call c1 whose back end raises: the output for c1 is the
      prefixed error message, which is not empty. */
  lemma FailingReportLookupAnswered(env: Env, m: string)
    requires env.parse("{\"patient_id\": 7}") == Ok(JObject(map["patient_id" := JInt(7)]))
    requires env.backend(Invocation("get_doctor_reports", [JInt(7)])) == Err(m)
    ensures var event := map["name" := JStr("get_doctor_reports"), "call_id" := JStr("c1"),
                             "arguments" := JStr("{\"patient_id\": 7}")];
            Answer(event, env) == Some(CallResult(JStr("c1"), ERROR_PREFIX + m))
            && |Answer(event, env).value.output| > 0
  {
    var event := map["name" := JStr("get_doctor_reports"), "call_id" := JStr("c1"),
                     "arguments" := JStr("{\"patient_id\": 7}")];
    DefinedHandlerAnswered(event, env, "get_doctor_reports");
    var ps := Params("get_doctor_reports").value;
    assert seq(|ps|, i requires 0 <= i < |ps| => GetOr(map["patient_id" := JInt(7)], ps[i].0, ps[i].1)) == [JInt(7)];
  }
}
