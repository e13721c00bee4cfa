/** What the handlers of the relay rely on about frames: which parts of a message survive being
    written, read, marked with metadata and stripped of it. */
module RelayMessages {
  import opened JsonValue
  import opened JsonRpc
  import opened Options
  import opened Relay
  import opened RelayShape

  lemma RequestFrame(r: Request)
    ensures var m := SerializeRequest(r);
            && IsRequest(m) && m["id"] == r.id
            && ParseRequest(m).Parsed? && ParseRequest(m).value == r
            && (forall key :: MetadataText(m, key) == TextAt(r.metadata, key))
  {
  }

  lemma ReplyFrame(id: Value, result: Value, error: Option<RpcError>)
    ensures var m := SerializeResponse(Response(id, result, map[], error));
            && IsResponse(m) && "metadata" !in m && "transport" !in m && m["id"] == id
            && ("error" in m <==> error.Some?)
  {
  }

  /** The platform's request to disconnect is nobody's request, and closes the connection. */
  lemma FarewellFrame(id: Value)
    ensures var m := Farewell(id);
            && IsRequest(m) && m["id"] == id && m == Farewell(m["id"]) && TransportOf(m) == None
            && ParseRequest(m).Parsed? && TransportOf(ParseRequest(m).message) == None && ClosesManager(m)
  {
  }

  lemma NotifyFrame(method_: string, params: Value)
    ensures var m := SerializeNotify(Notify(method_, params, map[]));
            NoId(m) && "metadata" !in m && "transport" !in m
  {
  }

  /** Reading a request leaves its meaning alone, though it may add a null. */
  lemma ReadFrame(m: Fields)
    requires IsRequest(m) && ParseRequest(m).Parsed?
    ensures ParseRequest(m).value.id == m["id"]
    ensures forall key :: MetadataText(m, key) == TextAt(ParseRequest(m).value.metadata, key)
    ensures var t := ParseRequest(m).message;
            && IsRequest(t) && t["id"] == m["id"] && ParseRequest(t).Parsed?
            && ParseRequest(t).value == ParseRequest(m).value
            && (forall key :: MetadataText(t, key) == MetadataText(m, key))
  {
  }

  lemma MarkedFrame(m: Fields, metadata: Fields)
    ensures var t := m["metadata" := Obj(metadata)];
            && (IsRequest(t) <==> IsRequest(m)) && (NoId(t) <==> NoId(m)) && (IsResponse(t) <==> IsResponse(m))
            && ("transport" in t <==> "transport" in m) && ("id" in m ==> t["id"] == m["id"])
            && (forall key :: MetadataText(t, key) == TextAt(metadata, key))
  {
  }

  /** A request with other metadata is read with these. */
  lemma MarkedRequest(m: Fields, metadata: Fields)
    requires IsRequest(m) && ParseRequest(m).Parsed?
    ensures var t := m["metadata" := Obj(metadata)];
            ParseRequest(t).Parsed? && ParseRequest(t).value == ParseRequest(m).value.(metadata := metadata)
  {
  }

  /** The metadata that a request is read with. */
  lemma ReadMetadata(m: Fields)
    requires IsRequest(m) && ParseRequest(m).Parsed? && "metadata" in m
    ensures m["metadata"] == Obj(ParseRequest(m).value.metadata)
  {
  }

  lemma StrippedFrame(m: Fields)
    ensures var t := m - {"metadata"};
            && (IsRequest(t) <==> IsRequest(m)) && (NoId(t) <==> NoId(m)) && (IsResponse(t) <==> IsResponse(m))
            && ("transport" in t <==> "transport" in m) && ("id" in m ==> t["id"] == m["id"])
            && "metadata" !in t
  {
  }

  // ---------------------------------------------------------------- names of methods

  lemma {:induction false} SplitPlain(a: string)
    requires '.' !in a
    ensures Split(a) == [a]
  {
    if a != "" {
      SplitPlain(a[1..]);
      assert a == [a[0]] + a[1..];
    }
  }

  lemma {:induction false} SplitAtDot(a: string, b: string)
    requires '.' !in a && '.' !in b
    ensures Split(a + "." + b) == [a, b]
  {
    if a == "" {
      assert (a + "." + b)[1..] == b;
      SplitPlain(b);
    } else {
      assert (a + "." + b)[1..] == a[1..] + "." + b;
      SplitAtDot(a[1..], b);
      assert a == [a[0]] + a[1..];
    }
  }

  /** The first part of a text goes up to its first dot. */
  lemma {:induction false} SplitHead(s: string)
    ensures var parts := Split(s);
            && '.' !in parts[0]
            && (|parts| == 1 ==> s == parts[0])
            && (|parts| > 1 ==> exists rest :: s == parts[0] + "." + rest && parts[1..] == Split(rest))
  {
    if s != "" && s[0] == '.' {
      assert s == "" + "." + s[1..];
    } else if s != "" {
      SplitHead(s[1..]);
      var parts := Split(s[1..]);
      assert s == [s[0]] + s[1..];
      if |parts| > 1 {
        var rest :| s[1..] == parts[0] + "." + rest && parts[1..] == Split(rest);
        assert s == [s[0]] + parts[0] + "." + rest;
        assert Split(s)[0] == [s[0]] + parts[0] && Split(s)[1..] == parts[1..];
      }
    }
  }

  lemma ControlMethods()
    ensures Split("control.on") == ["control", "on"] && Split("control.off") == ["control", "off"]
    ensures Split("control.status") == ["control", "status"]
    ensures "control.on" == "control." + "on" && "control.off" == "control." + "off"
    ensures "control.status" == "control." + "status"
  {
    hide Split;
    SplitAtDot("control", "on");
    SplitAtDot("control", "off");
    SplitAtDot("control", "status");
    assert "control.on" == "control" + "." + "on";
    assert "control.off" == "control" + "." + "off";
    assert "control.status" == "control" + "." + "status";
  }

  lemma DeviceMethods()
    ensures Split("devices.list") == ["devices", "list"] && Split("devices.control") == ["devices", "control"]
    ensures Split("devices.detail") == ["devices", "detail"] && Split("devices.subscribe") == ["devices", "subscribe"]
    ensures Split("devices.unsubscribe") == ["devices", "unsubscribe"]
  {
    hide Split;
    SplitAtDot("devices", "list");
    SplitAtDot("devices", "control");
    SplitAtDot("devices", "detail");
    SplitAtDot("devices", "subscribe");
    SplitAtDot("devices", "unsubscribe");
    assert "devices.list" == "devices" + "." + "list";
    assert "devices.control" == "devices" + "." + "control";
    assert "devices.detail" == "devices" + "." + "detail";
    assert "devices.subscribe" == "devices" + "." + "subscribe";
    assert "devices.unsubscribe" == "devices" + "." + "unsubscribe";
  }

  lemma ConnectionMethods()
    ensures Split("connections.subscribe") == ["connections", "subscribe"]
    ensures Split("connections.unsubscribe") == ["connections", "unsubscribe"]
  {
    hide Split;
    SplitAtDot("connections", "subscribe");
    SplitAtDot("connections", "unsubscribe");
    assert "connections.subscribe" == "connections" + "." + "subscribe";
    assert "connections.unsubscribe" == "connections" + "." + "unsubscribe";
  }

  lemma GuestMethods()
    ensures Split("users.login") == ["users", "login"] && Split("manager.info") == ["manager", "info"]
  {
    hide Split;
    SplitAtDot("users", "login");
    SplitAtDot("manager", "info");
    assert "users.login" == "users" + "." + "login";
    assert "manager.info" == "manager" + "." + "info";
  }

  lemma PlatformGuestMethods()
    ensures Split("profile.signup") == ["profile", "signup"] && Split("profile.login") == ["profile", "login"]
    ensures Split("manager.info") == ["manager", "info"]
  {
    hide Split;
    SplitAtDot("profile", "signup");
    SplitAtDot("profile", "login");
    SplitAtDot("manager", "info");
    assert "profile.signup" == "profile" + "." + "signup";
    assert "profile.login" == "profile" + "." + "login";
    assert "manager.info" == "manager" + "." + "info";
  }

  lemma SubscriptionMethods()
    ensures Split("subscriptions.devices") == ["subscriptions", "devices"]
  {
    hide Split;
    SplitAtDot("subscriptions", "devices");
    assert "subscriptions.devices" == "subscriptions" + "." + "devices";
  }
}
