/** The JSON-RPC envelope in the form of the source: `operator[]` on a map inserts what it does not
    find, `parse` reads a message field by field and `serialize` builds one step by step. */
module JsonRpcLoops {
  import opened JsonValue
  import opened JsonPrinter
  import opened JsonRpc
  import opened Options

  /** `map`: its only state is the sorted tree of fields. */
  class JsonMap {
    var values: Fields

    constructor ()
      ensures values == map[]
    {
      values := map[];
    }

    /** `find(key) != end()` */
    method Has(key: string) returns (found: bool)
      ensures found <==> Contains(values, key)
    {
      found := key in values;
    }

    /** `operator[]` read as a value. */
    method Index(key: string) returns (v: Value)
      modifies this
      ensures values == Touch(old(values), key) && v == values[key]
    {
      if key !in values {
        values := values[key := Null];
      }
      v := values[key];
    }

    /** `operator[]` assigned to. */
    method Set(key: string, v: Value)
      modifies this
      ensures values == old(values)[key := v]
    {
      values := values[key := v];
    }

    method Erase(key: string)
      modifies this
      ensures values == old(values) - {key}
    {
      values := values - {key};
    }

    /** `to_string` */
    method ToString() returns (text: string)
      ensures text == Save(Obj(values))
    {
      text := Print(Obj(values), "");
    }
  }

  /** The shared tail of the two readers that take parameters and metadata. */
  method ReadMetadata(message: JsonMap) returns (r: Option<Fields>)
    modifies message
    ensures message.values == old(message.values) && r == MetadataOf(message.values)
  {
    var has := message.Has("metadata");
    if !has {
      return Some(map[]);
    }
    var v := message.Index("metadata");
    r := if v.Obj? then Some(v.fields) else None;
  }

  method ReadParams(message: JsonMap) returns (v: Value)
    modifies message
    ensures var key := ParamsKey(old(message.values));
            message.values == Touch(old(message.values), key) && v == message.values[key]
  {
    var has := message.Has("param");
    if has {
      v := message.Index("param");
    } else {
      v := message.Index("params");
    }
  }

  method ReadRequest(message: JsonMap) returns (r: Parsed<Request>)
    modifies message
    ensures r == ParseRequest(old(message.values))
    ensures r.Parsed? ==> message.values == r.message
  {
    var id := message.Index("id");
    var method_ := message.Index("method");
    if !method_.Str? {
      return BadGet;
    }
    var params := ReadParams(message);
    var metadata := ReadMetadata(message);
    if metadata.None? {
      return BadGet;
    }
    r := Parsed(Request(id, method_.s, params, metadata.value), message.values);
  }

  method ReadNotify(message: JsonMap) returns (r: Parsed<Notify>)
    modifies message
    ensures r == ParseNotify(old(message.values))
    ensures r.Parsed? ==> message.values == r.message
  {
    var method_ := message.Index("method");
    if !method_.Str? {
      return BadGet;
    }
    var params := ReadParams(message);
    var metadata := ReadMetadata(message);
    if metadata.None? {
      return BadGet;
    }
    r := Parsed(Notify(method_.s, params, metadata.value), message.values);
  }

  method ReadResponse(message: JsonMap) returns (r: Parsed<Response>)
    modifies message
    ensures r == ParseResponse(old(message.values))
    ensures r.Parsed? ==> message.values == r.message
  {
    var id := message.Index("id");
    var result := message.Index("result");
    var metadata := ReadMetadata(message);
    if metadata.None? {
      return BadGet;
    }
    r := Parsed(Response(id, result, metadata.value, None), message.values);
  }

  method WriteRequest(msg: Request) returns (text: string)
    ensures text == Save(Obj(SerializeRequest(msg)))
  {
    var obj := new JsonMap();
    obj.Set("jsonrpc", Str("2.0"));
    obj.Set("method", Str(msg.method_));
    if msg.params != Null {
      obj.Set("params", msg.params);
    }
    obj.Set("id", msg.id);
    if msg.metadata != map[] {
      obj.Set("metadata", Obj(msg.metadata));
    }
    text := obj.ToString();
  }

  method WriteNotify(msg: Notify) returns (text: string)
    ensures text == Save(Obj(SerializeNotify(msg)))
  {
    var obj := new JsonMap();
    obj.Set("jsonrpc", Str("2.0"));
    obj.Set("method", Str(msg.method_));
    if msg.params != Null {
      obj.Set("params", msg.params);
    }
    if msg.metadata != map[] {
      obj.Set("metadata", Obj(msg.metadata));
    }
    text := obj.ToString();
  }

  method WriteResponse(msg: Response) returns (text: string)
    ensures text == Save(Obj(SerializeResponse(msg)))
  {
    var obj := new JsonMap();
    obj.Set("jsonrpc", Str("2.0"));
    obj.Set("result", msg.result);
    if msg.error.Some? {
      var error := new JsonMap();
      error.Set("code", Int(msg.error.value.code));
      error.Set("message", Str(msg.error.value.message));
      error.Set("data", msg.error.value.data);
      assert error.values == ErrorFields(msg.error.value);
      obj.Set("error", Obj(error.values));
    }
    obj.Set("id", msg.id);
    if msg.metadata != map[] {
      obj.Set("metadata", Obj(msg.metadata));
    }
    text := obj.ToString();
  }
}
