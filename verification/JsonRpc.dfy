/** The JSON-RPC envelope: messages, how they are read out of a JSON map and how they are written. */
module JsonRpc {
  import opened JsonValue
  import opened Options

  type Fields = map<string, Value>

  datatype Request = Request(id: Value, method_: string, params: Value, metadata: Fields)

  datatype Notify = Notify(method_: string, params: Value, metadata: Fields)

  datatype RpcError = RpcError(code: int, message: string, data: Value)

  datatype Response = Response(id: Value, result: Value, metadata: Fields, error: Option<RpcError>)

  /** `as<T>()` throws `bad_get` when the field holds another alternative. Reading also leaves a null
      in the map for every field that was looked up and missing. */
  datatype Parsed<+T> = Parsed(value: T, message: Fields) | BadGet

  const UNKNOWN_ERROR_CODE := -32001

  predicate Contains(m: Fields, key: string) {
    key in m
  }

  predicate IsNotify(m: Fields) {
    !Contains(m, "id")
  }

  predicate IsRequest(m: Fields) {
    Contains(m, "method") && Contains(m, "id")
  }

  predicate IsResponse(m: Fields) {
    !Contains(m, "method") && Contains(m, "id")
  }

  /** The map behind `operator[]`: a missing key now holds null. */
  function Touch(m: Fields, key: string): (r: Fields)
    ensures key in r
  {
    if key in m then m else m[key := Null]
  }

  /** The key under which the parameters are looked up. */
  function ParamsKey(m: Fields): string {
    if Contains(m, "param") then "param" else "params"
  }

  /** The metadata field, or the empty map when there is none. */
  function MetadataOf(m: Fields): Option<Fields> {
    if !Contains(m, "metadata") then Some(map[])
    else if m["metadata"].Obj? then Some(m["metadata"].fields)
    else None
  }

  function ParseRequest(message: Fields): Parsed<Request> {
    var m := Touch(Touch(message, "id"), "method");
    if !m["method"].Str? then BadGet
    else
      var p := Touch(m, ParamsKey(m));
      match MetadataOf(p)
      case None => BadGet
      case Some(metadata) => Parsed(Request(p["id"], p["method"].s, p[ParamsKey(m)], metadata), p)
  }

  function ParseNotify(message: Fields): Parsed<Notify> {
    var m := Touch(message, "method");
    if !m["method"].Str? then BadGet
    else
      var p := Touch(m, ParamsKey(m));
      match MetadataOf(p)
      case None => BadGet
      case Some(metadata) => Parsed(Notify(p["method"].s, p[ParamsKey(m)], metadata), p)
  }

  function ParseResponse(message: Fields): Parsed<Response> {
    var m := Touch(Touch(message, "id"), "result");
    match MetadataOf(m)
    case None => BadGet
    case Some(metadata) => Parsed(Response(m["id"], m["result"], metadata, None), m)
  }

  function WithParams(m: Fields, params: Value): Fields {
    if params == Null then m else m["params" := params]
  }

  function WithMetadata(m: Fields, metadata: Fields): Fields {
    if metadata == map[] then m else m["metadata" := Obj(metadata)]
  }

  function SerializeRequest(r: Request): Fields {
    WithMetadata(
      WithParams(map["jsonrpc" := Str("2.0"), "method" := Str(r.method_)], r.params)["id" := r.id], r.metadata)
  }

  function SerializeNotify(n: Notify): Fields {
    WithMetadata(WithParams(map["jsonrpc" := Str("2.0"), "method" := Str(n.method_)], n.params), n.metadata)
  }

  function ErrorFields(e: RpcError): Fields {
    map["code" := Int(e.code), "message" := Str(e.message), "data" := e.data]
  }

  function SerializeResponse(r: Response): Fields {
    var m := map["jsonrpc" := Str("2.0"), "result" := r.result];
    var withError := if r.error.Some? then m["error" := Obj(ErrorFields(r.error.value))] else m;
    WithMetadata(withError["id" := r.id], r.metadata)
  }
}
