/** Each handler passes a request on, answers it or drops it, and never does two of these. With honest
    clients it does not drop it. */
module RelayHandlers {
  import opened JsonValue
  import opened JsonRpc
  import opened Options
  import opened Relay
  import opened RelayRun
  import opened RelayShape
  import opened RelayMessages

  /** How many more hops a request can have before it is answered. */
  function Rank(p: Packet): nat {
    match p
    case AtPlatform(_, m) => if IsRequest(m) then 33 else 11
    case ProfileAuth(_) => 32
    case PlatformService(_) => 31
    case PlatformCall(_, _, _) => 30
    case ManagersRequest(_) => 29
    case PlatformWrite(_, m) => if IsRequest(m) then 28 else 9
    case AtPlatformClient(_, _) => 27
    case AtManager(_, _, m) => if IsRequest(m) then 26 else 15
    case UsersAuth(_, _) => 25
    case Service(_, _) => 24
    case Call(_, service, name, _) =>
      if service == "connections" then 22
      else if service == "subscriptions" && (name == "groups" || name == "on" || name == "off") then 21
      else if service == "devices" && name == "request" then 20
      else 23
    case ManagerWrite(_, _, m) => if IsRequest(m) then 19 else 13
    case AtDevice(_, _) => 18
    case Control(_, _, _) => 17
    case DeviceWrite(_, _, _) => 16
    case DevicesResponse(_, _) => 14
    case PlatformPipe(_, _, _) => 12
    case ManagersResponse(_) => 10
    case DevicesNotify(_, _) => 0
    case Emit(_, _) => 0
  }

  /** The authentication handlers can be called as methods, and then send the request round again. */
  predicate Rearms(p: Packet) {
    match p
    case Call(_, service, name, _) => service == "users" && name == "auth"
    case PlatformCall(service, name, _) => service == "profile" && name == "auth"
    case _ => false
  }

  /** If `q` has a request, it is that of `p`, one hop further on. */
  predicate Moves(cfg: Config, g: Registries, strict: bool, p: Packet, q: Packet) {
    && Shape(cfg, g, strict, q)
    && (TokenOf(q) == TokenOf(p) || (!strict && TokenOf(q) == []))
    && (TokenOf(q) != [] ==> Rank(q) < Rank(p) || Rearms(p))
  }

  predicate MovesOnce(cfg: Config, g: Registries, strict: bool, p: Packet, outs: seq<Packet>) {
    && |outs| <= 1 && (strict && TokenOf(p) != [] ==> |outs| == 1)
    && forall i | 0 <= i < |outs| :: Moves(cfg, g, strict, p, outs[i])
  }

  // ---------------------------------------------------------------- platform

  lemma PlatformReplyMoves(cfg: Config, g: Registries, strict: bool, p: Packet, task: Task, m: Fields)
    requires TokenOf(p) == TokenOfTask(task) && Rank(p) > 9
    requires strict ==> RoleOf(g, task.transportId).Some?
    requires strict ==> RoleOf(g, task.transportId).value.Client? || RoleOf(g, task.transportId).value.ManagerLink?
    requires IsResponse(m) && "metadata" !in m && m["id"] == task.request.id
    ensures MovesOnce(cfg, g, strict, p, [PlatformWrite(task.transportId, m)])
  {
  }

  lemma PlatformRefusalMoves(cfg: Config, g: Registries, strict: bool, p: Packet, task: Task, text: string)
    requires TokenOf(p) == TokenOfTask(task) && Rank(p) > 9
    requires strict ==> RoleOf(g, task.transportId).Some?
    requires strict ==> RoleOf(g, task.transportId).value.Client? || RoleOf(g, task.transportId).value.ManagerLink?
    ensures MovesOnce(cfg, g, strict, p, PlatformRefuse(task, text))
  {
    hide SerializeResponse, MovesOnce;
    ReplyFrame(task.request.id, Null, Some(RpcError(UNKNOWN_ERROR_CODE, text, Null)));
    PlatformReplyMoves(cfg, g, strict, p, task, ErrorMessage(task.request.id, text));
  }

  lemma PlatformResultMoves(cfg: Config, g: Registries, strict: bool, p: Packet, task: Task, result: Value)
    requires TokenOf(p) == TokenOfTask(task) && Rank(p) > 9
    requires strict ==> RoleOf(g, task.transportId).Some?
    requires strict ==> RoleOf(g, task.transportId).value.Client? || RoleOf(g, task.transportId).value.ManagerLink?
    ensures MovesOnce(cfg, g, strict, p, PlatformReply(task, result))
  {
    hide SerializeResponse, MovesOnce;
    ReplyFrame(task.request.id, result, None);
    PlatformReplyMoves(cfg, g, strict, p, task, ResultMessage(task.request.id, result));
  }

  /** A request to the platform itself. */
  lemma OwnRequestEnters(cfg: Config, g: Registries, strict: bool, from: Id, r: Request, p: Packet)
    requires TokenOf(p) == [(from, r.id)] && Rank(p) == 33
    requires strict ==> RoleOf(g, from).Some?
    requires strict ==> (RoleOf(g, from).value.ManagerLink? && r.method_ in ACTIONS && "profile-key" !in r.metadata) ||
                        (RoleOf(g, from).value.Client? && PlatformRequest(r))
    requires "manager-key" !in r.metadata
    ensures MovesOnce(cfg, g, strict, p, EnterPlatform(from, r))
  {
    hide UserRequest, ParseRequest, PlatformRefuse, Split, Readable, PlatformHandlers, CallFits, HandlerFits,
         FrameFromDevice, DeviceFrame, ReplyOrNotify, ToManagerFrame;
    var parts := Split(r.method_);
    ControlMethods();
    PlatformGuestMethods();
    PlatformRefusalMoves(cfg, g, strict, p, Task(from, r, map[]), "not specified correctly method");
    if |parts| > 1 {
      var task := Task(from, r, map["service.name" := parts[0], "service.method" := parts[1]]);
      PlatformRefusalMoves(cfg, g, strict, p, task, "access is denied");
    }
  }

  lemma RequestEnters(cfg: Config, g: Registries, strict: bool, from: Id, m: Fields)
    requires Shape(cfg, g, strict, AtPlatform(from, m)) && IsRequest(m)
    ensures MovesOnce(cfg, g, strict, AtPlatform(from, m), PlatformDispatcher(from, m))
  {
    hide UserRequest, ParseRequest, EnterPlatform, Split, Readable, PlatformHandlers;
    if ParseRequest(m).Parsed? {
      ReadFrame(m);
      var r := ParseRequest(m).value;
      if !Contains(r.metadata, "manager-key") {
        hide MovesOnce;
        OwnRequestEnters(cfg, g, strict, from, r, AtPlatform(from, m));
      }
    }
  }

  lemma AtPlatformMoves(cfg: Config, g: Registries, strict: bool, from: Id, m: Fields)
    requires Shape(cfg, g, strict, AtPlatform(from, m))
    ensures MovesOnce(cfg, g, strict, AtPlatform(from, m), PlatformDispatcher(from, m))
  {
    hide UserRequest, ParseRequest;
    if IsRequest(m) {
      RequestEnters(cfg, g, strict, from, m);
    }
  }

  lemma ProfileMoves(cfg: Config, g: Registries, strict: bool, task: Task, db: Answer)
    requires Shape(cfg, g, strict, ProfileAuth(task))
    ensures MovesOnce(cfg, g, strict, ProfileAuth(task), AuthenticateProfile(g, task, db))
  {
    hide PlatformRefuse, Split, Readable, PlatformHandlers;
    var p := ProfileAuth(task);
    PlatformRefusalMoves(cfg, g, strict, p, task, if db.Failed? then db.what else "authentication bad");
  }

  lemma RoutedOnPlatform(cfg: Config, g: Registries, strict: bool, task: Task)
    requires Shape(cfg, g, strict, PlatformService(task))
    ensures MovesOnce(cfg, g, strict, PlatformService(task), RouteOnPlatform(task))
  {
    hide PlatformRefuse, Split, Readable, PlatformHandlers;
    var p := PlatformService(task);
    PlatformRefusalMoves(cfg, g, strict, p, task, "service not found");
    PlatformRefusalMoves(cfg, g, strict, p, task, "method not found");
  }

  /** `managers.delete` with a registered manager sends two frames. */
  predicate Dismisses(g: Registries, p: Packet, db: Answer) {
    && p.PlatformCall? && p.service == "managers" && p.method_ == "delete"
    && Param(p.task.request, "key").Some? && Param(p.task.request, "key").value != ""
    && Param(p.task.request, "key").value in g.managers && db.Found?
  }

  lemma ServedOnPlatform(cfg: Config, g: Registries, strict: bool, service: string, name: string, task: Task,
                         db: Answer)
    requires Shape(cfg, g, strict, PlatformCall(service, name, task))
    requires !Dismisses(g, PlatformCall(service, name, task), db)
    ensures MovesOnce(cfg, g, strict, PlatformCall(service, name, task), ServeOnPlatform(g, service, name, task, db))
  {
    hide PlatformRefuse, PlatformReply, Readable, Param;
    var p := PlatformCall(service, name, task);
    PlatformRefusalMoves(cfg, g, strict, p, task, if db.Failed? then db.what else "manager not found");
    PlatformRefusalMoves(cfg, g, strict, p, task, "key manager empty");
    PlatformResultMoves(cfg, g, strict, p, task, Bool(true));
    PlatformResultMoves(cfg, g, strict, p, task, Arr(if db.Found? then db.rows else []));
    if service == "managers" && name == "delete" && Readable(service, name, task.request) {
      assert Param(task.request, "key").Some? by { DeleteNamesManager(task.request); }
    }
  }

  lemma DeleteNamesManager(r: Request)
    requires Readable("managers", "delete", r)
    ensures Param(r, "key").Some?
  {
    assert "key" in TextParams("managers", "delete");
  }

  /** The manager is told first, in a frame that belongs to no request, and the client is answered. */
  lemma DismissalMoves(cfg: Config, g: Registries, strict: bool, service: string, name: string, task: Task, db: Answer)
    requires RegistriesOk(g, strict) && Shape(cfg, g, strict, PlatformCall(service, name, task))
    requires Dismisses(g, PlatformCall(service, name, task), db)
    ensures var p, outs := PlatformCall(service, name, task), ServeOnPlatform(g, service, name, task, db);
            outs == [] || (|outs| == 2 && Shape(cfg, g, strict, outs[0]) && TokenOf(outs[0]) == [] &&
                           Moves(cfg, g, strict, p, outs[1]))
    ensures strict ==> ServeOnPlatform(g, service, name, task, db) != []
  {
    hide SerializeResponse, SerializeRequest, ParseRequest, ClosesManager, Readable;
    FarewellFrame(task.request.id);
    ReplyFrame(task.request.id, Bool(true), None);
  }

  lemma ToManagerMoves(cfg: Config, g: Registries, strict: bool, task: Task)
    requires RegistriesOk(g, strict) && Shape(cfg, g, strict, ManagersRequest(task))
    ensures MovesOnce(cfg, g, strict, ManagersRequest(task), RequestToManager(g.managers, task))
  {
    hide ParseRequest, SerializeRequest, PlatformRefuse;
    var p := ManagersRequest(task);
    var key := TextAt(task.request.metadata, "manager-key");
    PlatformRefusalMoves(cfg, g, strict, p, task, "manager not connection");
    if key.Some? && key.value in g.managers {
      var marked := task.request.(metadata := task.request.metadata["transport" := Str(task.transportId)]);
      RequestFrame(marked);
      assert strict ==> UserRequest(cfg, key.value, marked);
      hide UserRequest, HomeAtPlatform;
    }
  }

  lemma ToClientMoves(cfg: Config, g: Registries, strict: bool, m: Fields)
    requires Shape(cfg, g, strict, ManagersResponse(m))
    ensures MovesOnce(cfg, g, strict, ManagersResponse(m), ResponseToClient(m))
  {
    StrippedFrame(m);
    hide UserRequest;
  }

  // ---------------------------------------------------------------- manager

  lemma AnswerMoves(cfg: Config, g: Registries, strict: bool, k: Key, p: Packet, task: Task, m: Fields)
    requires TokenOf(p) == TokenOfTask(task) && Rank(p) > 13 && (strict ==> HomeAtManager(g, k, task.transportId))
    requires IsResponse(m) && "metadata" !in m && "transport" !in m && m["id"] == task.request.id
    ensures MovesOnce(cfg, g, strict, p, [ManagerWrite(k, task.transportId, m)])
  {
  }

  lemma RefusalMoves(cfg: Config, g: Registries, strict: bool, k: Key, p: Packet, task: Task, text: string)
    requires TokenOf(p) == TokenOfTask(task) && Rank(p) > 13 && (strict ==> HomeAtManager(g, k, task.transportId))
    ensures MovesOnce(cfg, g, strict, p, Refuse(k, task, text))
  {
    hide SerializeResponse, MovesOnce;
    ReplyFrame(task.request.id, Null, Some(RpcError(UNKNOWN_ERROR_CODE, text, Null)));
    AnswerMoves(cfg, g, strict, k, p, task, ErrorMessage(task.request.id, text));
  }

  lemma ReplyMoves(cfg: Config, g: Registries, strict: bool, k: Key, p: Packet, task: Task, result: Value)
    requires TokenOf(p) == TokenOfTask(task) && Rank(p) > 13 && (strict ==> HomeAtManager(g, k, task.transportId))
    ensures MovesOnce(cfg, g, strict, p, Reply(k, task, result))
  {
    hide SerializeResponse, MovesOnce;
    ReplyFrame(task.request.id, result, None);
    AnswerMoves(cfg, g, strict, k, p, task, ResultMessage(task.request.id, result));
  }

  lemma FromPlatformMoves(cfg: Config, g: Registries, strict: bool, k: Key, m: Fields)
    requires Shape(cfg, g, strict, AtPlatformClient(k, m))
    ensures MovesOnce(cfg, g, strict, AtPlatformClient(k, m), FromPlatform(k, m))
  {
    hide UserRequest, ParseRequest;
    if IsRequest(m) && ParseRequest(m).Parsed? {
      ReadFrame(m);
      FarewellFrame(m["id"]);
    }
  }

  lemma GuestFits(cfg: Config, k: Key, task: Task)
    requires UserRequest(cfg, k, task.request) && "user-key" !in task.request.metadata
    requires task.request.method_ in GUESTS
    ensures var parts := Split(task.request.method_);
            && |parts| > 1 && CallFits(parts[0], parts[1], task)
            && !(parts[0] == "users" && parts[1] == "auth")
  {
    hide Split, Readable;
    GuestMethods();
  }

  lemma RoutedIntoManager(cfg: Config, g: Registries, strict: bool, k: Key, from: Id, m: Fields)
    requires Shape(cfg, g, strict, AtManager(k, from, m)) && IsRequest(m)
    ensures MovesOnce(cfg, g, strict, AtManager(k, from, m), ManagerDispatcher(cfg, k, from, m))
  {
    hide UserRequest, ParseRequest, Split, Refuse, HomeAtManager, FrameFromDevice, DeviceFrame, RelayedFrame,
         ReplyOrNotify, TransportOf, MetadataText, TextAt, HandlerFits, CallFits;
    var p := AtManager(k, from, m);
    if ParseRequest(m).Parsed? {
      ReadFrame(m);
      var r := ParseRequest(m).value;
      var parts := Split(r.method_);
      RefusalMoves(cfg, g, strict, k, p, Task(from, r, map[]), "not specified correctly method");
      if |parts| > 1 {
        var task := Task(from, r, map["service.name" := parts[0], "service.method" := parts[1],
                                      "profile.key" := cfg(k)]);
        RefusalMoves(cfg, g, strict, k, p, task, "access is denied");
        if strict && r.method_ in GUESTS && "user-key" !in r.metadata {
          GuestFits(cfg, k, task);
        }
      }
    }
  }

  lemma AtManagerMoves(cfg: Config, g: Registries, strict: bool, k: Key, from: Id, m: Fields)
    requires Shape(cfg, g, strict, AtManager(k, from, m))
    ensures MovesOnce(cfg, g, strict, AtManager(k, from, m), ManagerDispatcher(cfg, k, from, m))
  {
    hide UserRequest, ParseRequest;
    if IsRequest(m) {
      RoutedIntoManager(cfg, g, strict, k, from, m);
    }
  }

  lemma AuthMoves(cfg: Config, g: Registries, strict: bool, k: Key, task: Task, db: Answer)
    requires Shape(cfg, g, strict, UsersAuth(k, task))
    ensures MovesOnce(cfg, g, strict, UsersAuth(k, task), Authenticate(g, k, task, db))
  {
    hide Refuse, Split, HomeAtManager;
    RefusalMoves(cfg, g, strict, k, UsersAuth(k, task), task, if db.Failed? then db.what else "authentication bad");
  }

  lemma ServiceMoves(cfg: Config, g: Registries, strict: bool, k: Key, task: Task)
    requires Shape(cfg, g, strict, Service(k, task))
    ensures MovesOnce(cfg, g, strict, Service(k, task), RouteToService(k, task))
  {
    hide Refuse, Split, HomeAtManager, UserRequest, Handlers;
    var p := Service(k, task);
    RefusalMoves(cfg, g, strict, k, p, task, "service not found");
    RefusalMoves(cfg, g, strict, k, p, task, "method not found");
    RefusalMoves(cfg, g, strict, k, p, task, "permission denied");
    DeviceMethods();
    ConnectionMethods();
    SubscriptionMethods();
  }

  /** A handler that changes the parameters or the metadata of the task, but none of the typed fields. */
  predicate SameUse(a: Request, b: Request) {
    && a.id == b.id && a.method_ == b.method_ && TextAt(a.metadata, "user-key") == TextAt(b.metadata, "user-key")
    && ("user-key" in a.metadata <==> "user-key" in b.metadata)
    && ("device-key" in a.metadata <==> "device-key" in b.metadata)
    && TextAt(a.metadata, "device-key") == TextAt(b.metadata, "device-key")
    && (a.params == b.params || a.method_ == "subscriptions.devices")
  }

  lemma SameUseKeeps(cfg: Config, g: Registries, k: Key, task: Task, r: Request)
    requires TaskOk(cfg, g, k, task) && SameUse(task.request, r)
    ensures TaskOk(cfg, g, k, task.(request := r))
  {
  }

  lemma WithGroupsMoves(cfg: Config, g: Registries, strict: bool, k: Key, p: Packet, task: Task, db: Answer,
                        next: string)
    requires TokenOf(p) == TokenOfTask(task) && Rank(p) == 22 && (next == "groups" || next == "on")
    requires strict ==> TaskOk(cfg, g, k, task) && "user-key" in task.request.metadata
    requires strict && next == "groups" ==> ForDevice(task)
    requires strict && next == "on" ==> task.request.method_ in SUBSCRIBE_METHODS
    ensures MovesOnce(cfg, g, strict, p, WithGroups(k, task, db, next))
  {
    hide Refuse, UserRequest, HomeAtManager;
    RefusalMoves(cfg, g, strict, k, p, task, if db.Failed? then db.what else "device groups empty");
    if db.Found? && strict {
      var r := task.request.(metadata := task.request.metadata["device-groups" := Arr(db.rows)]);
      SameUseKeeps(cfg, g, k, task, r);
    }
  }

  lemma CheckAccessMoves(cfg: Config, g: Registries, strict: bool, k: Key, task: Task, db: Answer)
    requires Shape(cfg, g, strict, Call(k, "subscriptions", "groups", task))
    ensures MovesOnce(cfg, g, strict, Call(k, "subscriptions", "groups", task), CheckAccess(k, task, db))
  {
    hide Refuse, UserRequest, HomeAtManager;
    var p := Call(k, "subscriptions", "groups", task);
    RefusalMoves(cfg, g, strict, k, p, task, "device-groups empty");
    RefusalMoves(cfg, g, strict, k, p, task, BAD_GET);
    RefusalMoves(cfg, g, strict, k, p, task, if db.Failed? then db.what else "access denied to device");
    if strict {
      var r := task.request.(metadata := task.request.metadata - {"device-groups"});
      SameUseKeeps(cfg, g, k, task, r);
    }
  }

  /** The request for a device has the id of the request it comes from. */
  lemma ActionMoves(cfg: Config, g: Registries, strict: bool, k: Key, task: Task, to: Id, action: string)
    requires strict ==> DeviceOf(g, k, to) && HomeAtManager(g, k, task.transportId) && action in ACTIONS
    ensures MovesOnce(cfg, g, strict, Call(k, "devices", "request", task),
                      [ManagerWrite(k, to, SerializeRequest(Request(task.request.id, action, Null,
                                                                    map["transport" := Str(task.transportId)])))])
  {
    hide ParseRequest, SerializeRequest, UserRequest, HomeAtManager, DeviceOf;
    RequestFrame(Request(task.request.id, action, Null, map["transport" := Str(task.transportId)]));
  }

  lemma ToDeviceMoves(cfg: Config, g: Registries, strict: bool, k: Key, task: Task)
    requires RegistriesOk(g, strict) && Shape(cfg, g, strict, Call(k, "devices", "request", task))
    ensures MovesOnce(cfg, g, strict, Call(k, "devices", "request", task), RequestToDevice(g, k, task))
  {
    hide Refuse, ParseRequest, SerializeRequest, MovesOnce, HomeAtManager;
    RefusalMoves(cfg, g, strict, k, Call(k, "devices", "request", task), task, "device not connected");
    var device, action := TextAt(task.request.metadata, "device-key"), Param(task.request, "action");
    if device.Some? && action.Some? && (k, device.value) in g.devices {
      ActionMoves(cfg, g, strict, k, task, g.devices[(k, device.value)], action.value);
    }
    assert device.None? || action.None? ==> !strict;
    hide Shape;
    NothingMoves(cfg, g, Call(k, "devices", "request", task));
  }

  lemma NothingMoves(cfg: Config, g: Registries, p: Packet)
    ensures MovesOnce(cfg, g, false, p, [])
  {
  }

  lemma ControlMoves(cfg: Config, g: Registries, strict: bool, k: Key, task: Task, db: Answer)
    requires Shape(cfg, g, strict, Call(k, "devices", "control", task))
    ensures MovesOnce(cfg, g, strict, Call(k, "devices", "control", task), Serve(g, k, "devices", "control", task, db))
  {
    hide Refuse, HomeAtManager;
    var p := Call(k, "devices", "control", task);
    RefusalMoves(cfg, g, strict, k, p, task, "device-key not found");
    RefusalMoves(cfg, g, strict, k, p, task, "device not connected");
  }

  lemma ConnectionsDevicesMoves(cfg: Config, g: Registries, strict: bool, k: Key, task: Task, db: Answer)
    requires Shape(cfg, g, strict, Call(k, "connections", "devices", task))
    ensures MovesOnce(cfg, g, strict, Call(k, "connections", "devices", task),
                      Serve(g, k, "connections", "devices", task, db))
  {
    hide Refuse, HomeAtManager, WithGroups;
    var p := Call(k, "connections", "devices", task);
    RefusalMoves(cfg, g, strict, k, p, task, "device-key empty");
    var device := TextAt(task.request.metadata, "device-key");
    if device.Some? && device.value != "" {
      WithGroupsMoves(cfg, g, strict, k, p, task, db, "groups");
    }
  }

  lemma DevicesSubscribeMoves(cfg: Config, g: Registries, strict: bool, k: Key, name: string, task: Task, db: Answer)
    requires Shape(cfg, g, strict, Call(k, "devices", name, task)) && (name == "subscribe" || name == "unsubscribe")
    ensures MovesOnce(cfg, g, strict, Call(k, "devices", name, task), Serve(g, k, "devices", name, task, db))
  {
    hide Refuse, HomeAtManager;
    RefusalMoves(cfg, g, strict, k, Call(k, "devices", name, task), task, "device not connected");
  }

  lemma ConnectionsSubscribeMoves(cfg: Config, g: Registries, strict: bool, k: Key, name: string, task: Task,
                                  db: Answer)
    requires Shape(cfg, g, strict, Call(k, "connections", name, task)) && (name == "subscribe" || name == "unsubscribe")
    ensures MovesOnce(cfg, g, strict, Call(k, "connections", name, task), Serve(g, k, "connections", name, task, db))
  {
    hide Refuse, HomeAtManager, WithGroups;
    var p := Call(k, "connections", name, task);
    RefusalMoves(cfg, g, strict, k, p, task, "device-key empty");
    WithGroupsMoves(cfg, g, strict, k, p, task, db, "on");
  }

  lemma SubscriptionsDevicesMoves(cfg: Config, g: Registries, strict: bool, k: Key, task: Task, db: Answer)
    requires Shape(cfg, g, strict, Call(k, "subscriptions", "devices", task))
    ensures MovesOnce(cfg, g, strict, Call(k, "subscriptions", "devices", task),
                      Serve(g, k, "subscriptions", "devices", task, db))
  {
    hide Refuse, HomeAtManager, UserRequest;
    var p := Call(k, "subscriptions", "devices", task);
    RefusalMoves(cfg, g, strict, k, p, task, if db.Failed? then db.what else "");
    if db.Found? && strict {
      SameUseKeeps(cfg, g, k, task, task.request.(params := Arr(db.rows)));
    }
  }

  lemma OnMoves(cfg: Config, g: Registries, strict: bool, k: Key, task: Task, db: Answer)
    requires Shape(cfg, g, strict, Call(k, "subscriptions", "on", task))
    ensures MovesOnce(cfg, g, strict, Call(k, "subscriptions", "on", task), AnswerOn(g, k, task, db))
  {
    hide Refuse, Reply, HomeAtManager;
    var p := Call(k, "subscriptions", "on", task);
    RefusalMoves(cfg, g, strict, k, p, task, "device-groups empty");
    RefusalMoves(cfg, g, strict, k, p, task, if db.Failed? then db.what else "access denied to device");
    RefusalMoves(cfg, g, strict, k, p, task, "subscriptions already");
    RefusalMoves(cfg, g, strict, k, p, task, BAD_GET);
    ReplyMoves(cfg, g, strict, k, p, task, Bool(true));
  }

  lemma OffMoves(cfg: Config, g: Registries, strict: bool, k: Key, task: Task)
    requires Shape(cfg, g, strict, Call(k, "subscriptions", "off", task))
    ensures MovesOnce(cfg, g, strict, Call(k, "subscriptions", "off", task), AnswerOff(g, k, task))
  {
    hide Refuse, Reply, SerializeResponse, HomeAtManager;
    var p := Call(k, "subscriptions", "off", task);
    RefusalMoves(cfg, g, strict, k, p, task, "device is not connect");
    ReplyMoves(cfg, g, strict, k, p, task, Bool(true));
    MixedMoves(cfg, g, strict, k, p, task, "unsubscribe already");
  }

  predicate Forwards(service: string, name: string) {
    || (service == "devices" && name in {"control", "request", "subscribe", "unsubscribe"})
    || (service == "connections" && name in {"devices", "subscribe", "unsubscribe"})
    || (service == "subscriptions" && name in {"groups", "devices", "on", "off"})
  }

  /** The answers that hold an error and a result. */
  lemma MixedMoves(cfg: Config, g: Registries, strict: bool, k: Key, p: Packet, task: Task, text: string)
    requires TokenOf(p) == TokenOfTask(task) && Rank(p) > 13 && (strict ==> HomeAtManager(g, k, task.transportId))
    ensures var error := RpcError(UNKNOWN_ERROR_CODE, text, Null);
            var m := SerializeResponse(Response(task.request.id, Bool(true), map[], Some(error)));
            MovesOnce(cfg, g, strict, p, [ManagerWrite(k, task.transportId, m)])
  {
    hide SerializeResponse, MovesOnce;
    var error := RpcError(UNKNOWN_ERROR_CODE, text, Null);
    ReplyFrame(task.request.id, Bool(true), Some(error));
    AnswerMoves(cfg, g, strict, k, p, task,
                SerializeResponse(Response(task.request.id, Bool(true), map[], Some(error))));
  }

  /** Typed requests do not make the handler throw. */
  lemma TypedIsReadable(cfg: Config, g: Registries, k: Key, service: string, name: string, task: Task)
    requires Typed(cfg, g, Call(k, service, name, task)) && !Forwards(service, name)
    ensures Readable(service, name, task.request)
    ensures name !in COMMON_HANDLERS
    ensures !(service == "devices" && name in {"connect", "disconnect", "response", "notify"})
    ensures !(service == "users" && name == "auth") && !(service == "subscriptions" && name == "emit")
  {
    hide HomeAtManager, ForDevice, GroupsOf, Param, Split;
  }

  lemma OthersAnswer(cfg: Config, g: Registries, strict: bool, k: Key, service: string, name: string, task: Task,
                     db: Answer)
    requires Shape(cfg, g, strict, Call(k, service, name, task)) && !Forwards(service, name)
    ensures MovesOnce(cfg, g, strict, Call(k, service, name, task), Serve(g, k, service, name, task, db))
  {
    hide Refuse, Reply, HomeAtManager, UserRequest, AcceptsDevice, ParamItems, SerializeResponse, Readable, CallFits,
         HandlerFits, TextParams;
    var p := Call(k, service, name, task);
    if strict {
      TypedIsReadable(cfg, g, k, service, name, task);
    }
    MixedMoves(cfg, g, strict, k, p, task, BAD_GET);
    RefusalMoves(cfg, g, strict, k, p, task, if db.Failed? then db.what else "device not found");
    RefusalMoves(cfg, g, strict, k, p, task, "device control contains actions and/or variables");
    ReplyMoves(cfg, g, strict, k, p, task, Bool(true));
    ReplyMoves(cfg, g, strict, k, p, task, Arr(if db.Found? then db.rows else []));
  }

  lemma ServeMoves(cfg: Config, g: Registries, strict: bool, k: Key, service: string, name: string, task: Task,
                   db: Answer)
    requires RegistriesOk(g, strict) && Shape(cfg, g, strict, Call(k, service, name, task))
    ensures MovesOnce(cfg, g, strict, Call(k, service, name, task), Serve(g, k, service, name, task, db))
  {
    hide Shape, MovesOnce, RegistriesOk, WithGroups, Refuse, Reply, AnswerOn, AnswerOff;
    if !Forwards(service, name) {
      OthersAnswer(cfg, g, strict, k, service, name, task, db);
    } else if service == "devices" && name == "control" {
      ControlMoves(cfg, g, strict, k, task, db);
    } else if service == "devices" && name == "request" {
      ToDeviceMoves(cfg, g, strict, k, task);
    } else if service == "devices" {
      DevicesSubscribeMoves(cfg, g, strict, k, name, task, db);
    } else if service == "connections" && name == "devices" {
      ConnectionsDevicesMoves(cfg, g, strict, k, task, db);
    } else if service == "connections" {
      ConnectionsSubscribeMoves(cfg, g, strict, k, name, task, db);
    } else if name == "groups" {
      CheckAccessMoves(cfg, g, strict, k, task, db);
    } else if name == "on" {
      OnMoves(cfg, g, strict, k, task, db);
    } else if name == "off" {
      OffMoves(cfg, g, strict, k, task);
    } else {
      SubscriptionsDevicesMoves(cfg, g, strict, k, task, db);
    }
  }

  /** The answer of a device that is registered moves on; that of another one is dropped. */
  lemma FromDeviceMoves(cfg: Config, g: Registries, strict: bool, k: Key, m: Fields)
    requires Shape(cfg, g, strict, DevicesResponse(k, m))
    ensures var outs := ResponseFromDevice(g, k, m);
            && MovesOnce(cfg, g, false, DevicesResponse(k, m), outs)
            && forall i | 0 <= i < |outs| :: Moves(cfg, g, strict, DevicesResponse(k, m), outs[i])
  {
    StrippedFrame(m);
  }

  // ---------------------------------------------------------------- device

  lemma AtDeviceMoves(cfg: Config, g: Registries, strict: bool, link: Id, m: Fields)
    requires Shape(cfg, g, strict, AtDevice(link, m))
    ensures MovesOnce(cfg, g, strict, AtDevice(link, m), DeviceDispatcher(link, m))
  {
    hide ParseRequest, Split;
    if IsRequest(m) && ParseRequest(m).Parsed? {
      ReadFrame(m);
      ControlMethods();
    }
  }

  lemma DeviceWriteMoves(cfg: Config, g: Registries, strict: bool, k: Key, device: Key, link: Id, to: Id, m: Fields)
    requires Shape(cfg, g, strict, DeviceWrite(link, to, m)) && RoleOf(g, link) == Some(DeviceLink(k, device))
    ensures MovesOnce(cfg, g, strict, DeviceWrite(link, to, m), FromDevice(cfg, k, device, link, to, m))
  {
    if "metadata" !in m || m["metadata"].Obj? {
      var given := if "metadata" in m then m["metadata"].fields else map[];
      var metadata := given["transport" := Str(to)]["device-key" := Str(device)]
                           ["manager-key" := Str(k)]["user-key" := Str(cfg(k))];
      MarkedFrame(m, metadata);
    }
  }

  /** The answer of a device comes with a notification, which belongs to no request. */
  lemma ControlAnswersOnce(cfg: Config, g: Registries, strict: bool, link: Id, name: string, task: Task)
    requires Shape(cfg, g, strict, Control(link, name, task))
    ensures var p, outs := Control(link, name, task), ControlAnswers(g, link, name, task);
            && 0 < |outs| <= 2 && Moves(cfg, g, strict, p, outs[0])
            && (|outs| == 2 ==> Shape(cfg, g, strict, outs[1]) && TokenOf(outs[1]) == [])
  {
    hide SerializeResponse, SerializeNotify;
    ReplyFrame(task.request.id, Bool(link in g.status && g.status[link]), None);
    ReplyFrame(task.request.id, Bool(true), None);
    NotifyFrame("control.status", Bool(name == "on"));
  }
}
