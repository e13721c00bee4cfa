/** JSON-RPC messages survive the trip through text, and each form is recognised for what it is. */
module JsonRpcRoundTrip {
  import opened JsonValue
  import opened JsonPrinter
  import opened JsonParser
  import opened JsonRoundTrip
  import opened JsonRpc
  import opened Options

  predicate FieldsInFragment(m: Fields) {
    forall k | k in m :: InFragment(m[k])
  }

  /** What the receiver reads out of the text of a message. */
  function Received(m: Fields, conv: Converter): Option<Fields> {
    match ParseDocument(Save(Obj(m)), 0, '{', conv)
    case At(_, Obj(received)) => Some(received)
    case _ => None
  }

  lemma ReceivedAsSent(m: Fields, conv: Converter)
    requires FieldsInFragment(m)
    ensures Received(m, conv) == Some(m)
  {
    RoundTrip(Obj(m), conv);
  }

  predicate RequestInFragment(r: Request) {
    InFragment(r.id) && InFragment(r.params) && FieldsInFragment(r.metadata)
  }

  predicate NotifyInFragment(n: Notify) {
    InFragment(n.params) && FieldsInFragment(n.metadata)
  }

  predicate ResponseInFragment(r: Response) {
    && InFragment(r.id) && InFragment(r.result) && FieldsInFragment(r.metadata)
    && (r.error.Some? ==> IsInt32(r.error.value.code) && InFragment(r.error.value.data))
  }

  lemma SerializedInFragment(m: Fields, metadata: Fields)
    requires FieldsInFragment(m) && FieldsInFragment(metadata)
    ensures FieldsInFragment(WithMetadata(m, metadata))
  {
    assert InFragment(Obj(metadata));
  }

  lemma RequestRoundTrip(r: Request, conv: Converter)
    requires RequestInFragment(r)
    ensures var m := SerializeRequest(r);
            && Received(m, conv) == Some(m)
            && ParseRequest(m).Parsed? && ParseRequest(m).value == r
            && IsRequest(m) && !IsResponse(m) && !IsNotify(m)
  {
    hide InFragment, Received;
    InFragmentBasics();
    var bare := WithParams(map["jsonrpc" := Str("2.0"), "method" := Str(r.method_)], r.params)["id" := r.id];
    SerializedInFragment(bare, r.metadata);
    ReceivedAsSent(SerializeRequest(r), conv);
  }

  lemma NotifyRoundTrip(n: Notify, conv: Converter)
    requires NotifyInFragment(n)
    ensures var m := SerializeNotify(n);
            && Received(m, conv) == Some(m)
            && ParseNotify(m).Parsed? && ParseNotify(m).value == n
            && IsNotify(m) && !IsRequest(m) && !IsResponse(m)
  {
    hide InFragment, Received;
    InFragmentBasics();
    var bare := WithParams(map["jsonrpc" := Str("2.0"), "method" := Str(n.method_)], n.params);
    SerializedInFragment(bare, n.metadata);
    ReceivedAsSent(SerializeNotify(n), conv);
  }

  lemma InFragmentBasics()
    ensures forall s :: InFragment(Str(s))
  {
  }

  lemma ErrorInFragment(e: RpcError)
    requires IsInt32(e.code) && InFragment(e.data)
    ensures InFragment(Obj(ErrorFields(e)))
  {
  }

  /** The reader ignores the error of a response, so the trip is exact for those without one. */
  lemma ResponseRoundTrip(r: Response, conv: Converter)
    requires ResponseInFragment(r)
    ensures var m := SerializeResponse(r);
            && Received(m, conv) == Some(m)
            && ParseResponse(m).Parsed? && (ParseResponse(m).value == r <==> r.error.None?)
            && ParseResponse(m).value == r.(error := None)
            && IsResponse(m) && !IsRequest(m) && !IsNotify(m)
  {
    hide InFragment, Received;
    InFragmentBasics();
    if r.error.Some? {
      ErrorInFragment(r.error.value);
    }
    var m := map["jsonrpc" := Str("2.0"), "result" := r.result];
    var bare := (if r.error.Some? then m["error" := Obj(ErrorFields(r.error.value))] else m)["id" := r.id];
    SerializedInFragment(bare, r.metadata);
    ReceivedAsSent(SerializeResponse(r), conv);
  }

  // ---------------------------------------------------------------- what is on the wire

  function Given(key: string, present: bool): set<string> {
    if present then {key} else {}
  }

  /** An object with the three members of the error and no others. */
  predicate SaysError(v: Value, e: RpcError) {
    && v.Obj? && v.fields.Keys == {"code", "message", "data"}
    && v.fields["code"] == Int(e.code) && v.fields["message"] == Str(e.message) && v.fields["data"] == e.data
  }

  predicate SaysRequest(m: Fields, r: Request) {
    && m.Keys == {"jsonrpc", "method", "id"} + Given("params", r.params != Null) +
                 Given("metadata", r.metadata != map[])
    && m["jsonrpc"] == Str("2.0") && m["method"] == Str(r.method_) && m["id"] == r.id
    && (r.params != Null ==> m["params"] == r.params) && (r.metadata != map[] ==> m["metadata"] == Obj(r.metadata))
  }

  predicate SaysNotify(m: Fields, n: Notify) {
    && m.Keys == {"jsonrpc", "method"} + Given("params", n.params != Null) + Given("metadata", n.metadata != map[])
    && m["jsonrpc"] == Str("2.0") && m["method"] == Str(n.method_)
    && (n.params != Null ==> m["params"] == n.params) && (n.metadata != map[] ==> m["metadata"] == Obj(n.metadata))
  }

  predicate SaysResponse(m: Fields, r: Response) {
    && m.Keys == {"jsonrpc", "result", "id"} + Given("error", r.error.Some?) + Given("metadata", r.metadata != map[])
    && m["jsonrpc"] == Str("2.0") && m["result"] == r.result && m["id"] == r.id
    && (r.error.Some? ==> SaysError(m["error"], r.error.value))
    && (r.metadata != map[] ==> m["metadata"] == Obj(r.metadata))
  }

  lemma RequestMembers(r: Request)
    ensures SaysRequest(SerializeRequest(r), r)
  {
  }

  lemma NotifyMembers(n: Notify)
    ensures SaysNotify(SerializeNotify(n), n)
  {
  }

  lemma ErrorMembers(e: RpcError)
    ensures SaysError(Obj(ErrorFields(e)), e)
  {
  }

  lemma ResponseMembers(r: Response)
    ensures SaysResponse(SerializeResponse(r), r)
  {
    if r.error.Some? {
      ErrorMembers(r.error.value);
    }
    hide ErrorFields, SaysError;
  }

  /** The text of a request has these members and no others. */
  lemma RequestOnWire(r: Request, conv: Converter)
    requires RequestInFragment(r)
    ensures var m := Received(SerializeRequest(r), conv); m.Some? && SaysRequest(m.value, r)
  {
    hide Received, SerializeRequest, SaysRequest, RequestInFragment;
    RequestRoundTrip(r, conv);
    RequestMembers(r);
  }

  lemma NotifyOnWire(n: Notify, conv: Converter)
    requires NotifyInFragment(n)
    ensures var m := Received(SerializeNotify(n), conv); m.Some? && SaysNotify(m.value, n)
  {
    hide Received, SerializeNotify, SaysNotify, NotifyInFragment;
    NotifyRoundTrip(n, conv);
    NotifyMembers(n);
  }

  /** The text of a response has the result and, if there is an error, its code, message and data. */
  lemma ResponseOnWire(r: Response, conv: Converter)
    requires ResponseInFragment(r)
    ensures var m := Received(SerializeResponse(r), conv); m.Some? && SaysResponse(m.value, r)
  {
    hide Received, SerializeResponse, SaysResponse, ResponseInFragment;
    ResponseRoundTrip(r, conv);
    ResponseMembers(r);
  }

  /** Responses with the same text have the same error, and are the same altogether. */
  lemma ResponseTextIsUnique(a: Response, b: Response, conv: Converter)
    requires ResponseInFragment(a) && ResponseInFragment(b)
    requires Save(Obj(SerializeResponse(a))) == Save(Obj(SerializeResponse(b)))
    ensures a == b
  {
    ResponseRoundTrip(a, conv);
    ResponseRoundTrip(b, conv);
    assert Received(SerializeResponse(a), conv) == Received(SerializeResponse(b), conv);
    ResponseMembers(a);
    ResponseMembers(b);
    hide Received, SerializeResponse, ParseResponse, ResponseInFragment, SaysError;
    SameError(SerializeResponse(a), a, b);
  }

  lemma SameError(m: Fields, a: Response, b: Response)
    requires SaysResponse(m, a) && SaysResponse(m, b)
    ensures a.error == b.error
  {
    assert a.error.Some? <==> "error" in m.Keys;
    assert b.error.Some? <==> "error" in m.Keys;
  }
}
