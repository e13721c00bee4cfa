/** The three-node relay: clients talk to a platform, the platform to managers, managers to devices.
    A message between two actors, or on a connection, is a packet in flight; a step delivers one packet
    to its handler. A frame is the JSON map behind its text. */
module Relay {
  import opened JsonValue
  import opened JsonRpc
  import opened Options

  /** `transport_id`: the name of a session, unique among all nodes. */
  type Id = string

  /** A manager is known by its key, and a device by its own. */
  type Key = string

  /** The other end of a session. The platform accepts clients and managers, a manager accepts
      clients and devices. */
  datatype Session =
    | Client
    | LocalClient(manager: Key)
    | ManagerLink(manager: Key)
    | DeviceLink(manager: Key, device: Key)

  datatype Task = Task(transportId: Id, request: Request, storage: map<string, string>)

  datatype Packet =
    | AtPlatform(from: Id, message: Fields)
    | ProfileAuth(task: Task)
    | PlatformService(task: Task)
    | PlatformCall(service: string, method_: string, task: Task)
    | ManagersRequest(task: Task)
    | ManagersResponse(message: Fields)
    | PlatformWrite(to: Id, message: Fields)
    | AtPlatformClient(manager: Key, message: Fields)
    | AtManager(manager: Key, from: Id, message: Fields)
    | UsersAuth(manager: Key, task: Task)
    | Service(manager: Key, task: Task)
    | Call(manager: Key, service: string, method_: string, task: Task)
    | DevicesResponse(manager: Key, message: Fields)
    | DevicesNotify(manager: Key, message: Fields)
    | Emit(manager: Key, message: Fields)
    | ManagerWrite(manager: Key, to: Id, message: Fields)
    | PlatformPipe(manager: Key, to: Id, message: Fields)
    | AtDevice(link: Id, message: Fields)
    | Control(link: Id, method_: string, task: Task)
    | DeviceWrite(link: Id, to: Id, message: Fields)

  /** What a database says in one handler: rows, a count, and the password of the login asked for, if the
      database knows that login. */
  datatype Answer = Found(rows: seq<Value>, count: nat, account: Option<string>) | Failed(what: string)

  /** The profile key that each manager is configured with. */
  type Config = Key -> string

  /** The registries of the nodes. `roles` remembers who every id was given to; a session is `live` while
      frames pass through it, and `stored` while its listener knows it. A session that was closed
      cleanly stays stored. `profiles` and `users` are the caches of keys that were authenticated. */
  datatype Registries = Registries(
    roles: map<Id, Session>,
    live: set<Id>,
    stored: set<Id>,
    managers: map<Key, Id>,
    devices: map<(Key, Key), Id>,
    subscribers: map<(Key, Key), seq<Id>>,
    status: map<Id, bool>,
    profiles: set<string>,
    users: set<(Key, string)>)

  function RoleOf(g: Registries, id: Id): Option<Session> {
    if id in g.roles then Some(g.roles[id]) else None
  }

  /** The other end of a session that is live. */
  function SessionOf(g: Registries, id: Id): Option<Session> {
    if id in g.live then RoleOf(g, id) else None
  }

  // ---------------------------------------------------------------- pieces of messages

  /** `boost::split` at dots. */
  function Split(s: string): (parts: seq<string>)
    ensures |parts| > 0
  {
    if s == "" then [""]
    else if s[0] == '.' then [""] + Split(s[1..])
    else
      var rest := Split(s[1..]);
      [[s[0]] + rest[0]] + rest[1..]
  }

  function TextAt(m: Fields, key: string): Option<string> {
    if key in m && m[key].Str? then Some(m[key].s) else None
  }

  /** `message["metadata"][key].as<std::string>()`. */
  function MetadataText(m: Fields, key: string): Option<string> {
    if "metadata" in m && m["metadata"].Obj? then TextAt(m["metadata"].fields, key) else None
  }

  function TransportOf(m: Fields): Option<Id> {
    MetadataText(m, "transport")
  }

  function ErrorMessage(id: Value, text: string): Fields {
    SerializeResponse(Response(id, Null, map[], Some(RpcError(UNKNOWN_ERROR_CODE, text, Null))))
  }

  function ResultMessage(id: Value, result: Value): Fields {
    SerializeResponse(Response(id, result, map[], None))
  }

  function Param(r: Request, key: string): Option<string> {
    if r.params.Obj? then TextAt(r.params.fields, key) else None
  }

  /** A value of `task.storage`. */
  function Stored(t: Task, key: string): string {
    if key in t.storage then t.storage[key] else ""
  }

  /** `emplace`: what is stored already stays. */
  function Emplaced(storage: map<string, string>, key: string, value: string): map<string, string> {
    if key in storage then storage else storage[key := value]
  }

  /** A key is a login and a password with a dot between them. */
  predicate Dotted(key: string) {
    |Split(key)| > 1
  }

  /** A login that the database does not know has the empty password. */
  function StoredPassword(db: Answer): string {
    if db.Found? && db.account.Some? then db.account.value else ""
  }

  /** The parameters that a handler reads as texts before it does anything else. */
  function TextParams(service: string, name: string): set<string> {
    if service == "profile" && (name == "signup" || name == "login") then {"login", "password"}
    else if service == "managers" && name == "add" then {"name"}
    else if service == "managers" && name == "delete" then {"key"}
    else if service == "users" && (name == "add" || name == "login") then {"login", "password"}
    else if service == "users" && name == "delete" then {"login"}
    else if service == "devices" && name == "add" then {"name"}
    else if service == "devices" && (name == "delete" || name == "detail") then {"key"}
    else if service == "groups" && name == "add" then {"key", "name"}
    else if service == "groups" && name == "delete" then {"key"}
    else if service == "subscriptions" && (name == "add" || name == "delete") then {"group-key", "user-login"}
    else if service == "connections" && (name == "add" || name == "delete") then {"group-key", "device-key"}
    else if (service == "subscriptions" || service == "connections") && name == "list" then {"group-key"}
    else {}
  }

  /** Otherwise the handler throws. */
  predicate Readable(service: string, name: string, r: Request) {
    && (forall key | key in TextParams(service, name) :: Param(r, key).Some?)
    && (service == "connections" && name == "groups" ==> r.params.Arr?)
  }

  // ---------------------------------------------------------------- platform

  const PLATFORM_GUESTS: set<string> := {"profile.signup", "profile.login", "manager.info"}

  const PLATFORM_SERVICES: set<string> := {"profile", "managers", "manager"}

  /** The handlers that every actor has. */
  const COMMON_HANDLERS: set<string> := {"sync_contacts", "skip", "add_channel"}

  function PlatformHandlers(service: string): set<string> {
    COMMON_HANDLERS +
    if service == "profile" then {"signup", "login", "auth"}
    else if service == "managers" then {"add", "delete", "list", "connect", "disconnect", "request", "response"}
    else if service == "manager" then {"info"}
    else {}
  }

  function PlatformReply(task: Task, result: Value): seq<Packet> {
    [PlatformWrite(task.transportId, ResultMessage(task.request.id, result))]
  }

  function PlatformRefuse(task: Task, text: string): seq<Packet> {
    [PlatformWrite(task.transportId, ErrorMessage(task.request.id, text))]
  }

  /** A request that names no manager. */
  function EnterPlatform(from: Id, r: Request): seq<Packet> {
    var parts := Split(r.method_);
    if |parts| <= 1 then PlatformRefuse(Task(from, r, map[]), "not specified correctly method")
    else
      var task := Task(from, r, map["service.name" := parts[0], "service.method" := parts[1]]);
      if Contains(r.metadata, "profile-key") then [ProfileAuth(task)]
      else if r.method_ in PLATFORM_GUESTS then [PlatformCall(parts[0], parts[1], task)]
      else PlatformRefuse(task, "access is denied")
  }

  /** `router.dispatcher` of the platform. */
  function PlatformDispatcher(from: Id, message: Fields): seq<Packet> {
    if !IsRequest(message) then [ManagersResponse(message)]
    else
      match ParseRequest(message)
      case BadGet => []
      case Parsed(r, _) =>
        if Contains(r.metadata, "manager-key") then [ManagersRequest(Task(from, r, map[]))]
        else EnterPlatform(from, r)
  }

  /** `profile.auth`. What the source compares the password of a key without a dot with has no meaning; the
      model loses the request. */
  function AuthenticateProfile(g: Registries, task: Task, db: Answer): seq<Packet> {
    match TextAt(task.request.metadata, "profile-key")
    case None => []
    case Some(key) =>
      var known := task.(storage := Emplaced(task.storage, "profile.login", Split(key)[0]));
      if key in g.profiles then [PlatformService(known)]
      else
        match db
        case Failed(what) => PlatformRefuse(task, what)
        case Found(_, _, _) =>
          if !Dotted(key) then []
          else if Split(key)[1] == StoredPassword(db) then [PlatformService(known)]
          else PlatformRefuse(task, "authentication bad")
  }

  /** `router.service` of the platform. */
  function RouteOnPlatform(task: Task): seq<Packet> {
    var service, name := Stored(task, "service.name"), Stored(task, "service.method");
    if service !in PLATFORM_SERVICES then PlatformRefuse(task, "service not found")
    else if name !in PlatformHandlers(service) then PlatformRefuse(task, "method not found")
    else [PlatformCall(service, name, task)]
  }

  /** The handlers of the platform's services. A `disconnect` is not answered, and a handler that expects
      something else than a task throws. Those not named here answer once with what their database says. */
  function ServeOnPlatform(g: Registries, service: string, name: string, task: Task, db: Answer): seq<Packet> {
    if service == "profile" && name == "auth" then [ProfileAuth(task)]
    else if service == "managers" && name == "request" then [ManagersRequest(task)]
    else if name in COMMON_HANDLERS || (service == "managers" && (name == "response" || name == "disconnect")) then []
    else if service == "managers" && name == "connect" then
      match Param(task.request, "key")
      case None => []
      case Some(_) =>
        match db
        case Failed(what) => PlatformRefuse(task, what)
        case Found(_, count, _) =>
          if count > 0 then PlatformReply(task, Bool(true)) else PlatformRefuse(task, "manager not found")
    else if !Readable(service, name, task.request) then []
    else if service == "managers" && name == "delete" then DeleteManager(g, task, db)
    else
      match db
      case Failed(what) => PlatformRefuse(task, what)
      case Found(rows, _, _) => PlatformReply(task, Arr(rows))
  }

  /** The request of the platform itself that ends a manager's connection. */
  function Farewell(id: Value): Fields {
    SerializeRequest(Request(id, "disconnect", Null, map[]))
  }

  /** `managers.delete`: a manager that is registered is told before the client is answered. */
  function DeleteManager(g: Registries, task: Task, db: Answer): seq<Packet> {
    match Param(task.request, "key")
    case None => []
    case Some(key) =>
      if key == "" then PlatformRefuse(task, "key manager empty")
      else
        match db
        case Failed(what) => PlatformRefuse(task, what)
        case Found(_, _, _) =>
          (if key in g.managers then [PlatformWrite(g.managers[key], Farewell(task.request.id))] else []) +
          PlatformReply(task, Bool(true))
  }

  /** `add_reg_manager`: `emplace` keeps a session that is registered already. */
  function ManagerConnected(g: Registries, key: Key, id: Id): Registries {
    if key in g.managers then g else g.(managers := g.managers[key := id])
  }

  function ManagerDisconnected(g: Registries, key: Key): Registries {
    g.(managers := g.managers - {key})
  }

  /** `managers.request`: the id of the asking session travels in the metadata. */
  function RequestToManager(managers: map<Key, Id>, task: Task): seq<Packet> {
    match TextAt(task.request.metadata, "manager-key")
    case None => []
    case Some(key) =>
      if key in managers then
        var metadata := task.request.metadata["transport" := Str(task.transportId)];
        [PlatformWrite(managers[key], SerializeRequest(task.request.(metadata := metadata)))]
      else PlatformRefuse(task, "manager not connection")
  }

  /** `managers.response`: the id comes out of the metadata again. */
  function ResponseToClient(message: Fields): seq<Packet> {
    match TransportOf(message)
    case None => []
    case Some(to) => [PlatformWrite(to, message - {"metadata"})]
  }

  // ---------------------------------------------------------------- manager

  const SERVICES: set<string> := {"users", "devices", "groups", "subscriptions", "connections"}

  const GUESTS: set<string> := {"users.login", "manager.info"}

  const USER_METHODS: set<string> :=
    {"devices.list", "devices.control", "devices.detail", "devices.subscribe", "subscriptions.devices",
     "devices.unsubscribe", "connections.subscribe", "connections.unsubscribe"}

  /** The handlers of a service, with those that every actor has. */
  function Handlers(service: string): set<string> {
    COMMON_HANDLERS + {"add", "delete", "list"} +
    if service == "users" then {"login", "auth"}
    else if service == "devices" then
      {"detail", "control", "connect", "disconnect", "request", "response", "notify", "subscribe", "unsubscribe"}
    else if service == "subscriptions" then {"devices", "groups", "on", "off", "emit"}
    else if service == "connections" then {"groups", "devices", "subscribe", "unsubscribe"}
    else {}
  }

  function Reply(k: Key, task: Task, result: Value): seq<Packet> {
    [ManagerWrite(k, task.transportId, ResultMessage(task.request.id, result))]
  }

  function Refuse(k: Key, task: Task, text: string): seq<Packet> {
    [ManagerWrite(k, task.transportId, ErrorMessage(task.request.id, text))]
  }

  /** `platform.dispatcher` closes the manager's connection on a frame with an error that is no request,
      and on the platform's own request to disconnect. */
  predicate ClosesManager(message: Fields) {
    if IsRequest(message) then
      match ParseRequest(message)
      case BadGet => false
      case Parsed(r, _) => !Contains(r.metadata, "transport") && r.method_ == "disconnect"
    else Contains(message, "error")
  }

  /** `platform.dispatcher`: a request that carries a transport id enters the router under that id. */
  function FromPlatform(k: Key, message: Fields): seq<Packet> {
    if !IsRequest(message) then []
    else
      match ParseRequest(message)
      case BadGet => []
      case Parsed(r, touched) =>
        match TransportOf(touched)
        case None => []
        case Some(from) => [AtManager(k, from, touched)]
  }

  /** `router.dispatcher`. */
  function ManagerDispatcher(cfg: Config, k: Key, from: Id, message: Fields): seq<Packet> {
    if IsResponse(message) then [DevicesResponse(k, message)]
    else if IsNotify(message) then [DevicesNotify(k, message)]
    else
      match ParseRequest(message)
      case BadGet => []
      case Parsed(r, _) =>
        var parts := Split(r.method_);
        if |parts| <= 1 then Refuse(k, Task(from, r, map[]), "not specified correctly method")
        else
          var task := Task(from, r, map["service.name" := parts[0], "service.method" := parts[1],
                                        "profile.key" := cfg(k)]);
          if Contains(r.metadata, "user-key") then [UsersAuth(k, task)]
          else if r.method_ in GUESTS then [Call(k, parts[0], parts[1], task)]
          else Refuse(k, task, "access is denied")
  }

  /** `users.auth`. What the source compares the password of a key without a dot with has no meaning; the
      model loses the request. */
  function Authenticate(g: Registries, k: Key, task: Task, db: Answer): seq<Packet> {
    match TextAt(task.request.metadata, "user-key")
    case None => []
    case Some(userKey) =>
      var admin := Stored(task, "profile.key") == userKey;
      var marked := task.storage["user.admin" := if admin then "1" else "0"];
      var known := task.(storage := Emplaced(marked, "user.login", Split(userKey)[0]));
      if admin || (k, userKey) in g.users then [Service(k, known)]
      else
        match db
        case Failed(what) => Refuse(k, task, what)
        case Found(_, _, _) =>
          if !Dotted(userKey) then []
          else if Split(userKey)[1] == StoredPassword(db) then [Service(k, known)]
          else Refuse(k, task, "authentication bad")
  }

  /** `router.service`. */
  function RouteToService(k: Key, task: Task): seq<Packet> {
    var service, name := Stored(task, "service.name"), Stored(task, "service.method");
    if service !in SERVICES then Refuse(k, task, "service not found")
    else if name !in Handlers(service) then Refuse(k, task, "method not found")
    else if Stored(task, "user.admin") == "1" || task.request.method_ in USER_METHODS then
      [Call(k, service, name, task)]
    else Refuse(k, task, "permission denied")
  }

  /** The handlers behind `Call`. A `disconnect` is not answered, and a handler that expects something else
      than a task throws. Those not named here answer once with what their database says. */
  function Serve(g: Registries, k: Key, service: string, name: string, task: Task, db: Answer): seq<Packet> {
    if name in COMMON_HANDLERS then []
    else if service == "users" && name == "auth" then [UsersAuth(k, task)]
    else if service == "devices" && (name == "response" || name == "notify" || name == "disconnect") then []
    else if service == "subscriptions" && name == "emit" then []
    else if service == "devices" && name == "connect" then ConnectDevice(k, task, db)
    else if service == "devices" && name == "control" then
      if !Contains(task.request.metadata, "device-key") then Refuse(k, task, "device-key not found")
      else
        match TextAt(task.request.metadata, "device-key")
        case None => []
        case Some(device) =>
          if (k, device) in g.devices then [Call(k, "connections", "devices", task)]
          else Refuse(k, task, "device not connected")
    else if service == "connections" && name == "devices" then
      match TextAt(task.request.metadata, "device-key")
      case None => []
      case Some(device) => if device == "" then Refuse(k, task, "device-key empty")
                           else WithGroups(k, task, db, "groups")
    else if service == "subscriptions" && name == "groups" then CheckAccess(k, task, db)
    else if service == "devices" && name == "request" then RequestToDevice(g, k, task)
    else if service == "devices" && (name == "subscribe" || name == "unsubscribe") then
      match Param(task.request, "device-key")
      case None => []
      case Some(device) =>
        if (k, device) in g.devices then [Call(k, "connections", name, task)]
        else Refuse(k, task, "device not connected")
    else if service == "connections" && (name == "subscribe" || name == "unsubscribe") then
      match Param(task.request, "device-key")
      case None => []
      case Some(device) =>
        if device == "" then Refuse(k, task, "device-key empty")
        else if name == "subscribe" then WithGroups(k, task, db, "on")
        else [Call(k, "subscriptions", "off", task)]
    else if service == "subscriptions" && name == "devices" then
      match db
      case Failed(what) => Refuse(k, task, what)
      case Found(rows, _, _) =>
        [Call(k, "connections", "groups", task.(request := task.request.(params := Arr(rows))))]
    else if service == "subscriptions" && name == "on" then AnswerOn(g, k, task, db)
    else if service == "subscriptions" && name == "off" then AnswerOff(g, k, task)
    else if !Readable(service, name, task.request) then []
    else
      match db
      case Failed(what) => Refuse(k, task, what)
      case Found(rows, _, _) => Reply(k, task, Arr(rows))
  }

  /** What `boost::bad_get` says of itself. */
  const BAD_GET := "boost::bad_get: failed value get using boost::get"

  /** `as<std::string>()` succeeds for every item. */
  predicate AllText(items: seq<Value>) {
    forall i | 0 <= i < |items| :: items[i].Str?
  }

  function ParamItems(r: Request, key: string): Option<seq<Value>> {
    if r.params.Obj? && key in r.params.fields && r.params.fields[key].Arr? then Some(r.params.fields[key].items)
    else None
  }

  /** The answer of `devices.connect`; for an action or a variable that is no text it holds an error and a
      result. */
  function ConnectDevice(k: Key, task: Task, db: Answer): seq<Packet> {
    match (Param(task.request, "key"), ParamItems(task.request, "actions"), ParamItems(task.request, "variables"))
    case (Some(_), Some(actions), Some(variables)) =>
      (match db
       case Failed(what) => Refuse(k, task, what)
       case Found(_, count, _) =>
         if count == 0 then Refuse(k, task, "device not found")
         else if actions == [] && variables == [] then
           Refuse(k, task, "device control contains actions and/or variables")
         else if AcceptsDevice(task, db) then Reply(k, task, Bool(true))
         else
           var error := RpcError(UNKNOWN_ERROR_CODE, BAD_GET, Null);
           [ManagerWrite(k, task.transportId,
                         SerializeResponse(Response(task.request.id, Bool(true), map[], Some(error))))])
    case _ => []
  }

  /** The database knows the device, and it has actions or variables, all of them texts. */
  predicate AcceptsDevice(task: Task, db: Answer) {
    match (ParamItems(task.request, "actions"), ParamItems(task.request, "variables"))
    case (Some(actions), Some(variables)) =>
      && db.Found? && db.count > 0 && (actions != [] || variables != [])
      && AllText(actions) && AllText(variables)
    case _ => false
  }

  /** `add_reg_device`: `emplace` keeps a session that is registered already. */
  function DeviceConnected(g: Registries, k: Key, device: Key, id: Id): Registries {
    if (k, device) in g.devices then g else g.(devices := g.devices[(k, device) := id])
  }

  function DeviceDisconnected(g: Registries, k: Key, device: Key): Registries {
    g.(devices := g.devices - {(k, device)})
  }

  /** The end of `connections.devices` and of `connections.subscribe`. */
  function WithGroups(k: Key, task: Task, db: Answer, next: string): seq<Packet> {
    match db
    case Failed(what) => Refuse(k, task, what)
    case Found(rows, _, _) =>
      if rows == [] then Refuse(k, task, "device groups empty")
      else
        var metadata := task.request.metadata["device-groups" := Arr(rows)];
        [Call(k, "subscriptions", next, task.(request := task.request.(metadata := metadata)))]
  }

  /** `subscriptions.groups`. */
  function CheckAccess(k: Key, task: Task, db: Answer): seq<Packet> {
    match GroupsOf(task)
    case None => []
    case Some(groups) =>
      if groups == [] then Refuse(k, task, "device-groups empty")
      else if !AllText(groups) then Refuse(k, task, BAD_GET)
      else
        match db
        case Failed(what) => Refuse(k, task, what)
        case Found(_, count, _) =>
          if count > 0 || Stored(task, "user.admin") == "1" then
            var metadata := task.request.metadata - {"device-groups"};
            [Call(k, "devices", "request", task.(request := task.request.(metadata := metadata)))]
          else Refuse(k, task, "access denied to device")
  }

  function Subscribers(g: Registries, k: Key, device: Key): seq<Id> {
    if (k, device) in g.subscribers then g.subscribers[(k, device)] else []
  }

  /** The groups that `connections.subscribe` found, if the task has any. */
  function GroupsOf(task: Task): Option<seq<Value>> {
    var metadata := task.request.metadata;
    if "device-groups" in metadata && metadata["device-groups"].Arr? then Some(metadata["device-groups"].items)
    else None
  }

  /** The answer of `subscriptions.on`. */
  function AnswerOn(g: Registries, k: Key, task: Task, db: Answer): seq<Packet> {
    match (GroupsOf(task), Param(task.request, "device-key"))
    case (Some(groups), Some(device)) =>
      if groups == [] then Refuse(k, task, "device-groups empty")
      else if !AllText(groups) then Refuse(k, task, BAD_GET)
      else
        (match db
         case Failed(what) => Refuse(k, task, what)
         case Found(rows, _, _) =>
           if rows == [] && Stored(task, "user.admin") == "0" then Refuse(k, task, "access denied to device")
           else if task.transportId in Subscribers(g, k, device) then Refuse(k, task, "subscriptions already")
           else Reply(k, task, Bool(true)))
    case _ => []
  }

  /** The answer of `subscriptions.off`; for a listener that is not there it holds an error and a result. */
  function AnswerOff(g: Registries, k: Key, task: Task): seq<Packet> {
    match Param(task.request, "device-key")
    case None => []
    case Some(device) =>
      if (k, device) !in g.subscribers then Refuse(k, task, "device is not connect")
      else if task.transportId in g.subscribers[(k, device)] then Reply(k, task, Bool(true))
      else
        var error := RpcError(UNKNOWN_ERROR_CODE, "unsubscribe already", Null);
        [ManagerWrite(k, task.transportId,
                      SerializeResponse(Response(task.request.id, Bool(true), map[], Some(error))))]
  }

  /** `devices.request`: a new request for the device, with the same id, that carries the transport id. */
  function RequestToDevice(g: Registries, k: Key, task: Task): seq<Packet> {
    match TextAt(task.request.metadata, "device-key")
    case None => []
    case Some(device) =>
      if (k, device) !in g.devices then Refuse(k, task, "device not connected")
      else
        match Param(task.request, "action")
        case None => []
        case Some(action) =>
          var r := Request(task.request.id, action, Null, map["transport" := Str(task.transportId)]);
          [ManagerWrite(k, g.devices[(k, device)], SerializeRequest(r))]
  }

  /** `devices.response`: the answer of a device that is still registered goes to whoever asked. */
  function ResponseFromDevice(g: Registries, k: Key, message: Fields): seq<Packet> {
    match (TransportOf(message), MetadataText(message, "device-key"))
    case (Some(to), Some(device)) =>
      if IsResponse(message) && (k, device) in g.devices then [ManagerWrite(k, to, message - {"metadata"})] else []
    case _ => []
  }

  /** `devices.notify`. */
  function NotifyFromDevice(g: Registries, k: Key, message: Fields): seq<Packet> {
    match MetadataText(message, "device-key")
    case None => []
    case Some(device) => if IsNotify(message) && (k, device) in g.devices then [Emit(k, message)] else []
  }

  /** `subscriptions.emit`: one copy for each subscriber. */
  function EmitToSubscribers(g: Registries, k: Key, message: Fields): seq<Packet> {
    match MetadataText(message, "device-key")
    case None => []
    case Some(device) => if (k, device) in g.subscribers then Copies(k, message, g.subscribers[(k, device)]) else []
  }

  function Copies(k: Key, message: Fields, ids: seq<Id>): (copies: seq<Packet>)
    requires "metadata" in message && message["metadata"].Obj?
    ensures |copies| == |ids|
  {
    if ids == [] then []
    else
      var metadata := message["metadata"].fields["transport" := Str(ids[0])];
      [ManagerWrite(k, ids[0], message["metadata" := Obj(metadata)])] + Copies(k, message, ids[1..])
  }

  /** `platform.write`: a frame for a session of the platform, marked with the id of that session, leaves
      through a live connection of the manager. */
  function ToPlatform(g: Registries, k: Key, via: Id, to: Id, message: Fields): seq<Packet> {
    if ("metadata" in message && !message["metadata"].Obj?) || SessionOf(g, via) != Some(ManagerLink(k)) then []
    else
      var given := if "metadata" in message then message["metadata"].fields else map[];
      var metadata := if Contains(message, "transport") then given else given["transport" := Str(to)];
      [AtPlatform(via, message["metadata" := Obj(metadata)])]
  }

  // ---------------------------------------------------------------- device

  const CONTROLS: set<string> := {"on", "off", "status"}

  /** `manager.dispatcher` of the device, for the methods of its control service. */
  function DeviceDispatcher(link: Id, message: Fields): seq<Packet> {
    if !IsRequest(message) then []
    else
      match (ParseRequest(message), TransportOf(message))
      case (Parsed(r, _), Some(id)) =>
        var parts := Split(r.method_);
        if |parts| > 1 && parts[0] == "control" && parts[1] in CONTROLS then
          [Control(link, parts[1], Task(id, r, map[]))]
        else []
      case _ => []
  }

  /** `control.on`, `control.off` and `control.status`. */
  function ControlAnswers(g: Registries, link: Id, name: string, task: Task): seq<Packet> {
    if name == "status" then
      [DeviceWrite(link, task.transportId,
                   ResultMessage(task.request.id, Bool(link in g.status && g.status[link])))]
    else
      [DeviceWrite(link, task.transportId, ResultMessage(task.request.id, Bool(true))),
       DeviceWrite(link, task.transportId, SerializeNotify(Notify("control.status", Bool(name == "on"), map[])))]
  }

  /** `manager.write` of the device: the id to answer and the device's keys go into the metadata. */
  function FromDevice(cfg: Config, k: Key, device: Key, link: Id, to: Id, message: Fields): seq<Packet> {
    if "metadata" in message && !message["metadata"].Obj? then []
    else
      var given := if "metadata" in message then message["metadata"].fields else map[];
      var metadata := given["transport" := Str(to)]["device-key" := Str(device)]
                         ["manager-key" := Str(k)]["user-key" := Str(cfg(k))];
      [AtManager(k, link, message["metadata" := Obj(metadata)])]
  }

  // ---------------------------------------------------------------- delivering a packet

  /** `ws_listener::write` of the platform, which has no pipe to fall back on. */
  function WriteAtPlatform(g: Registries, to: Id, message: Fields): seq<Packet> {
    match SessionOf(g, to)
    case Some(ManagerLink(k)) => [AtPlatformClient(k, message)]
    case _ => []
  }

  /** The sessions that the listener of a manager accepts. */
  predicate IsLocal(g: Registries, k: Key, id: Id) {
    match RoleOf(g, id)
    case Some(LocalClient(owner)) => owner == k
    case Some(DeviceLink(owner, _)) => owner == k
    case _ => false
  }

  /** `ws_listener::write` of a manager: what is for none of the sessions it knows goes to the platform. */
  function WriteAtManager(g: Registries, k: Key, to: Id, message: Fields): seq<Packet> {
    if !IsLocal(g, k, to) || to !in g.stored then [PlatformPipe(k, to, message)]
    else if to in g.live && g.roles[to].DeviceLink? then [AtDevice(to, message)]
    else []
  }

  /** The packets that handling `p` puts in flight. `via` is the platform session of the manager. */
  function Outputs(cfg: Config, g: Registries, p: Packet, db: Answer, via: Id): seq<Packet> {
    match p
    case AtPlatform(from, m) => PlatformDispatcher(from, m)
    case ProfileAuth(task) => AuthenticateProfile(g, task, db)
    case PlatformService(task) => RouteOnPlatform(task)
    case PlatformCall(service, name, task) => ServeOnPlatform(g, service, name, task, db)
    case ManagersRequest(task) => RequestToManager(g.managers, task)
    case ManagersResponse(m) => ResponseToClient(m)
    case PlatformWrite(to, m) => WriteAtPlatform(g, to, m)
    case AtPlatformClient(k, m) => FromPlatform(k, m)
    case AtManager(k, from, m) => ManagerDispatcher(cfg, k, from, m)
    case UsersAuth(k, task) => Authenticate(g, k, task, db)
    case Service(k, task) => RouteToService(k, task)
    case Call(k, service, name, task) => Serve(g, k, service, name, task, db)
    case DevicesResponse(k, m) => ResponseFromDevice(g, k, m)
    case DevicesNotify(k, m) => NotifyFromDevice(g, k, m)
    case Emit(k, m) => EmitToSubscribers(g, k, m)
    case ManagerWrite(k, to, m) => WriteAtManager(g, k, to, m)
    case PlatformPipe(k, to, m) => ToPlatform(g, k, via, to, m)
    case AtDevice(link, m) => DeviceDispatcher(link, m)
    case Control(link, name, task) => ControlAnswers(g, link, name, task)
    case DeviceWrite(link, to, m) =>
      match RoleOf(g, link)
      case Some(DeviceLink(k, device)) => FromDevice(cfg, k, device, link, to, m)
      case _ => []
  }

  datatype Frame = Frame(to: Id, message: Fields)

  /** The frames that handling `p` writes to a client, and answers to a manager's own request. */
  function Written(g: Registries, p: Packet): seq<Frame> {
    match p
    case PlatformWrite(to, m) =>
      (match SessionOf(g, to)
       case Some(Client) => [Frame(to, m)]
       case Some(ManagerLink(_)) => if IsRequest(m) then [] else [Frame(to, m)]
       case _ => [])
    case ManagerWrite(k, to, m) => if SessionOf(g, to) == Some(LocalClient(k)) then [Frame(to, m)] else []
    case _ => []
  }

  /** A manager has one connection to the platform; when it closes it, the platform keeps the session. */
  function LinkClosed(g: Registries, k: Key): Registries {
    g.(live := set id | id in g.live && RoleOf(g, id) != Some(ManagerLink(k)))
  }

  /** A key whose password was right is not asked for again. */
  function ProfileCached(g: Registries, task: Task, db: Answer): Registries {
    match TextAt(task.request.metadata, "profile-key")
    case None => g
    case Some(key) =>
      if db.Found? && Dotted(key) && Split(key)[1] == StoredPassword(db) then g.(profiles := g.profiles + {key}) else g
  }

  function UserCached(g: Registries, k: Key, task: Task, db: Answer): Registries {
    match TextAt(task.request.metadata, "user-key")
    case None => g
    case Some(key) =>
      if key == Stored(task, "profile.key") then g
      else if db.Found? && Dotted(key) && Split(key)[1] == StoredPassword(db) then g.(users := g.users + {(k, key)})
      else g
  }

  /** What handling `p` changes in the registries. */
  function Updated(g: Registries, p: Packet, db: Answer): Registries {
    match p
    case ProfileAuth(task) => ProfileCached(g, task, db)
    case UsersAuth(k, task) => UserCached(g, k, task, db)
    case PlatformCall(service, name, task) => UpdatedByPlatform(g, service, name, task, db)
    case AtPlatformClient(k, m) => if ClosesManager(m) then LinkClosed(g, k) else g
    case Call(k, service, name, task) => UpdatedByManager(g, k, service, name, task, db)
    case AtDevice(link, m) =>
      if !IsRequest(m) && Contains(m, "error") then g.(live := g.live - {link}) else g
    case Control(link, name, _) => if name == "status" then g else g.(status := g.status[link := name == "on"])
    case _ => g
  }

  function UpdatedByPlatform(g: Registries, service: string, name: string, task: Task, db: Answer): Registries {
    match Param(task.request, "key")
    case None => g
    case Some(key) =>
      if service == "managers" && name == "connect" && db.Found? && db.count > 0 then
        ManagerConnected(g, key, task.transportId)
      else if service == "managers" && name == "disconnect" then ManagerDisconnected(g, key)
      else if service == "managers" && name == "delete" && key != "" && db.Found? then ManagerDisconnected(g, key)
      else g
  }

  function UpdatedByManager(g: Registries, k: Key, service: string, name: string, task: Task, db: Answer)
    : Registries
  {
    if service == "subscriptions" then
      match Param(task.request, "device-key")
      case None => g
      case Some(device) =>
        if name == "on" then Subscribe(g, k, device, task, db)
        else if name == "off" then Unsubscribe(g, k, device, task)
        else g
    else if service == "devices" then
      match Param(task.request, "key")
      case None => g
      case Some(device) =>
        if name == "connect" && AcceptsDevice(task, db) then
          DeviceConnected(g, k, device, task.transportId)
        else if name == "disconnect" then DeviceDisconnected(g, k, device)
        else g
    else g
  }

  function Unsubscribe(g: Registries, k: Key, device: Key, task: Task): Registries {
    if (k, device) in g.subscribers then
      g.(subscribers := g.subscribers[(k, device) := Without(g.subscribers[(k, device)], task.transportId)])
    else g
  }

  function Subscribe(g: Registries, k: Key, device: Key, task: Task, db: Answer): Registries {
    match db
    case Failed(_) => g
    case Found(rows, _, _) =>
      if GroupsOf(task).None? || GroupsOf(task).value == [] || !AllText(GroupsOf(task).value) then g
      else if rows == [] && Stored(task, "user.admin") == "0" then g
      else
        var ids := Subscribers(g, k, device);
        var all := if task.transportId in ids then ids else ids + [task.transportId];
        g.(subscribers := g.subscribers[(k, device) := all])
  }

  function Without(ids: seq<Id>, id: Id): seq<Id> {
    if ids == [] then [] else (if ids[0] == id then [] else [ids[0]]) + Without(ids[1..], id)
  }
}
