/** What packets look like on their way. `strict` says that clients send well-typed requests only; without
    it very little is known of a packet. */
module RelayShape {
  import opened JsonValue
  import opened JsonRpc
  import opened Options
  import opened Relay
  import opened RelayRun

  // ---------------------------------------------------------------- requests of clients

  const ACTIONS: set<string> := {"control.on", "control.off", "control.status"}

  const SUBSCRIBE_METHODS: set<string> :=
    {"devices.subscribe", "connections.subscribe", "devices.unsubscribe", "connections.unsubscribe"}

  /** The fields that the handlers of a method read have their types. */
  predicate MethodTyped(r: Request) {
    && (r.method_ == "devices.control" ==>
          && ("device-key" in r.metadata ==> TextAt(r.metadata, "device-key").Some?)
          && Param(r, "action").Some? && Param(r, "action").value in ACTIONS)
    && (r.method_ in SUBSCRIBE_METHODS ==> Param(r, "device-key").Some?)
    && (r.method_ == "devices.detail" ==> Param(r, "key").Some?)
  }

  /** Well typed; a user's key has a dot, and whoever uses the profile key of the manager stays with the
      methods of users. */
  predicate UserRequest(cfg: Config, k: Key, r: Request) {
    if "user-key" in r.metadata then
      && TextAt(r.metadata, "user-key").Some?
      && (if TextAt(r.metadata, "user-key").value == cfg(k) then r.method_ in USER_METHODS
          else Dotted(TextAt(r.metadata, "user-key").value))
      && MethodTyped(r)
    else r.method_ == "users.login" ==> Readable("users", "login", r)
  }

  predicate UserFrame(cfg: Config, k: Key, m: Fields) {
    IsRequest(m) && ParseRequest(m).Parsed? && UserRequest(cfg, k, ParseRequest(m).value)
  }

  /** The handlers of the platform that answer tasks of clients. The others are for managers, expect
      something else than a task, or send it round again. */
  predicate Answers(service: string, name: string) {
    && name !in COMMON_HANDLERS && !(service == "profile" && name == "auth")
    && !(service == "managers" && name in {"connect", "disconnect", "request", "response"})
  }

  /** A well-typed request to the platform itself. */
  predicate PlatformRequest(r: Request) {
    var parts := Split(r.method_);
    && "manager-key" !in r.metadata
    && if "profile-key" in r.metadata then
         && TextAt(r.metadata, "profile-key").Some? && Dotted(TextAt(r.metadata, "profile-key").value)
         && (|parts| > 1 && parts[0] in PLATFORM_SERVICES && parts[1] in PlatformHandlers(parts[0]) ==>
               Answers(parts[0], parts[1]) && Readable(parts[0], parts[1], r))
       else r.method_ in PLATFORM_GUESTS && |parts| > 1 ==> Readable(parts[0], parts[1], r)
  }

  predicate OwnFrame(m: Fields) {
    IsRequest(m) && ParseRequest(m).Parsed? && PlatformRequest(ParseRequest(m).value)
  }

  /** A client of the platform names the manager, or asks the platform itself; a client of a manager is
      already there. */
  predicate StrictFrame(cfg: Config, g: Registries, id: Id, m: Fields) {
    match SessionOf(g, id)
    case Some(Client) =>
      || (MetadataText(m, "manager-key").Some? && UserFrame(cfg, MetadataText(m, "manager-key").value, m))
      || OwnFrame(m)
    case Some(LocalClient(k)) => UserFrame(cfg, k, m)
    case _ => true
  }

  predicate StrictStep(cfg: Config, s: State, step: Step) {
    step.ClientSends? ==> StrictFrame(cfg, s.g, step.id, step.message)
  }

  /** All clients send well-typed requests only. */
  predicate StrictRun(cfg: Config, s: State, steps: seq<Step>)
    decreases |steps|
  {
    steps != [] ==>
      && StrictRun(cfg, s, steps[..|steps| - 1])
      && StrictStep(cfg, Run(cfg, s, steps[..|steps| - 1]), steps[|steps| - 1])
  }

  // ---------------------------------------------------------------- the shape of a packet at each hop

  predicate HomeAtPlatform(g: Registries, c: Id) {
    RoleOf(g, c) == Some(Client)
  }

  predicate HomeAtManager(g: Registries, k: Key, c: Id) {
    RoleOf(g, c) == Some(Client) || RoleOf(g, c) == Some(LocalClient(k))
  }

  predicate IsClient(g: Registries, c: Id) {
    RoleOf(g, c).Some? && (RoleOf(g, c).value.Client? || RoleOf(g, c).value.LocalClient?)
  }

  predicate LinkOf(g: Registries, k: Key, id: Id) {
    RoleOf(g, id) == Some(ManagerLink(k))
  }

  predicate DeviceOf(g: Registries, k: Key, link: Id) {
    match RoleOf(g, link)
    case Some(DeviceLink(owner, _)) => owner == k
    case _ => false
  }

  predicate IsDevice(g: Registries, link: Id) {
    RoleOf(g, link).Some? && RoleOf(g, link).value.DeviceLink?
  }

  /** A request on its way from the platform to a manager carries the session that asked. */
  predicate RelayedFrame(cfg: Config, g: Registries, k: Key, m: Fields) {
    && UserFrame(cfg, k, m) && TransportOf(m).Some? && HomeAtPlatform(g, TransportOf(m).value)
    && MetadataText(m, "manager-key") == Some(k)
  }

  /** A client of the platform named this manager. */
  predicate Addressed(g: Registries, k: Key, from: Id, m: Fields) {
    RoleOf(g, from) == Some(Client) ==> MetadataText(m, "manager-key") == Some(k)
  }

  /** What the platform sends to a manager: a client's request, or its own to disconnect. */
  predicate ToManagerFrame(cfg: Config, g: Registries, k: Key, m: Fields) {
    RelayedFrame(cfg, g, k, m) || (IsRequest(m) && m == Farewell(m["id"]))
  }

  /** A request for a device. */
  predicate ActionFrame(m: Fields) {
    && IsRequest(m) && ParseRequest(m).Parsed?
    && var r := ParseRequest(m).value;
       r.method_ in ACTIONS && "manager-key" !in r.metadata && "profile-key" !in r.metadata
  }

  /** It carries the session that asked. */
  predicate DeviceFrame(g: Registries, k: Key, m: Fields) {
    ActionFrame(m) && TransportOf(m).Some? && HomeAtManager(g, k, TransportOf(m).value)
  }

  /** What comes from a device carries the session that asked, the device and the device's keys. */
  predicate FrameFromDevice(cfg: Config, g: Registries, k: Key, m: Fields) {
    && !IsRequest(m) && "transport" !in m
    && TransportOf(m).Some? && HomeAtManager(g, k, TransportOf(m).value)
    && MetadataText(m, "device-key").Some? && MetadataText(m, "user-key") == Some(cfg(k))
  }

  predicate NoId(m: Fields) {
    "id" !in m
  }

  /** A reply has no metadata yet, or not any more; a notification keeps that of its device. */
  predicate ReplyOrNotify(cfg: Config, k: Key, m: Fields) {
    && !IsRequest(m) && "transport" !in m
    && if NoId(m) then "metadata" in m && m["metadata"].Obj? && MetadataText(m, "user-key") == Some(cfg(k))
       else "metadata" !in m
  }

  predicate TaskOk(cfg: Config, g: Registries, k: Key, task: Task) {
    HomeAtManager(g, k, task.transportId) && UserRequest(cfg, k, task.request)
  }

  /** The task names the service and the method of its request. */
  predicate Routed(task: Task) {
    var parts := Split(task.request.method_);
    |parts| > 1 && Stored(task, "service.name") == parts[0] && Stored(task, "service.method") == parts[1]
  }

  /** A client of the platform that has shown, or shows, a profile key. */
  predicate ProfileTask(g: Registries, task: Task) {
    && HomeAtPlatform(g, task.transportId) && Routed(task)
    && PlatformRequest(task.request) && "profile-key" in task.request.metadata
  }

  predicate ForDevice(task: Task) {
    && task.request.method_ == "devices.control"
    && TextAt(task.request.metadata, "device-key").Some? && TextAt(task.request.metadata, "device-key").value != ""
  }

  /** Which handlers work on which requests. */
  predicate CallFits(service: string, name: string, task: Task) {
    && (service in SERVICES && service != "users" ==> "user-key" in task.request.metadata)
    && HandlerFits(service, name, task)
  }

  predicate HandlerFits(service: string, name: string, task: Task) {
    var r := task.request;
    if service == "devices" then
      if name == "control" then r.method_ == "devices.control"
      else if name == "request" then ForDevice(task)
      else if name == "subscribe" || name == "unsubscribe" then r.method_ in SUBSCRIBE_METHODS
      else name == "list" || (name == "detail" && r.method_ == "devices.detail")
    else if service == "connections" then
      if name == "devices" then r.method_ == "devices.control" && "device-key" in r.metadata
      else if name == "subscribe" || name == "unsubscribe" then r.method_ in SUBSCRIBE_METHODS
      else name == "groups" && r.params.Arr?
    else if service == "subscriptions" then
      if name == "groups" then ForDevice(task) && GroupsOf(task).Some?
      else if name == "on" then r.method_ in SUBSCRIBE_METHODS && GroupsOf(task).Some?
      else if name == "off" then r.method_ in SUBSCRIBE_METHODS
      else name == "devices" && r.method_ == "subscriptions.devices"
    else if service == "users" then name == "login" && Readable("users", "login", r)
    else service == "manager" && name == "info"
  }

  predicate Typed(cfg: Config, g: Registries, p: Packet) {
    match p
    case AtPlatform(from, m) =>
      if IsRequest(m) then
        || (HomeAtPlatform(g, from) && MetadataText(m, "manager-key").Some?
            && UserFrame(cfg, MetadataText(m, "manager-key").value, m))
        || (HomeAtPlatform(g, from) && OwnFrame(m))
        || (RoleOf(g, from).Some? && RoleOf(g, from).value.ManagerLink? && ActionFrame(m))
      else TransportOf(m).Some? && IsClient(g, TransportOf(m).value)
    case ProfileAuth(task) => ProfileTask(g, task)
    case PlatformService(task) => ProfileTask(g, task)
    case PlatformCall(service, name, task) =>
      HomeAtPlatform(g, task.transportId) && Answers(service, name) && Readable(service, name, task.request)
    case ManagersRequest(task) =>
      && HomeAtPlatform(g, task.transportId) && TextAt(task.request.metadata, "manager-key").Some?
      && UserRequest(cfg, TextAt(task.request.metadata, "manager-key").value, task.request)
    case ManagersResponse(m) => !IsRequest(m) && TransportOf(m).Some? && IsClient(g, TransportOf(m).value)
    case PlatformWrite(to, m) =>
      (match RoleOf(g, to)
       case Some(ManagerLink(k)) => IsRequest(m) ==> ToManagerFrame(cfg, g, k, m)
       case Some(DeviceLink(_, _)) => false
       case Some(_) => !IsRequest(m) && "metadata" !in m
       case None => false)
    case AtPlatformClient(k, m) => IsRequest(m) ==> ToManagerFrame(cfg, g, k, m)
    case AtManager(k, from, m) =>
      if IsRequest(m) then HomeAtManager(g, k, from) && UserFrame(cfg, k, m) && Addressed(g, k, from, m)
      else FrameFromDevice(cfg, g, k, m)
    case UsersAuth(k, task) =>
      && TaskOk(cfg, g, k, task) && Routed(task) && Stored(task, "profile.key") == cfg(k)
      && "user-key" in task.request.metadata
    case Service(k, task) =>
      && TaskOk(cfg, g, k, task) && Routed(task) && "user-key" in task.request.metadata
      && (Stored(task, "user.admin") == "1" ==> task.request.method_ in USER_METHODS)
    case Call(k, service, name, task) => TaskOk(cfg, g, k, task) && CallFits(service, name, task)
    case DevicesResponse(k, m) => IsResponse(m) && FrameFromDevice(cfg, g, k, m)
    case DevicesNotify(k, m) => NoId(m) && FrameFromDevice(cfg, g, k, m)
    case Emit(k, m) => NoId(m) && FrameFromDevice(cfg, g, k, m)
    case ManagerWrite(k, to, m) =>
      if IsRequest(m) then DeviceOf(g, k, to) && DeviceFrame(g, k, m)
      else ReplyOrNotify(cfg, k, m) && HomeAtManager(g, k, to)
    case PlatformPipe(k, to, m) =>
      if IsRequest(m) then ActionFrame(m) && "metadata" in m && m["metadata"].Obj?
      else ReplyOrNotify(cfg, k, m) && HomeAtManager(g, k, to)
    case AtDevice(link, m) => IsDevice(g, link) && DeviceFrame(g, RoleOf(g, link).value.manager, m)
    case Control(link, name, task) =>
      && IsDevice(g, link) && name in CONTROLS && HomeAtManager(g, RoleOf(g, link).value.manager, task.transportId)
      && task.request.method_ == "control." + name
    case DeviceWrite(link, to, m) =>
      && IsDevice(g, link) && HomeAtManager(g, RoleOf(g, link).value.manager, to)
      && !IsRequest(m) && "metadata" !in m && "transport" !in m
  }

  /** A response on its way out of a manager has no metadata, and a device makes no requests, whoever
      sent what. */
  predicate Bare(p: Packet) {
    match p
    case ManagerWrite(_, _, m) => IsResponse(m) ==> "metadata" !in m
    case PlatformPipe(_, _, m) => IsResponse(m) ==> "metadata" !in m
    case DeviceWrite(_, _, m) => !IsRequest(m)
    case Emit(_, m) => NoId(m)
    case Control(_, name, _) => name in CONTROLS
    case _ => true
  }

  predicate Shape(cfg: Config, g: Registries, strict: bool, p: Packet) {
    Bare(p) && (strict ==> Typed(cfg, g, p))
  }

  predicate AllShaped(cfg: Config, g: Registries, strict: bool, packets: seq<Packet>) {
    forall i | 0 <= i < |packets| :: Shape(cfg, g, strict, packets[i])
  }

  /** With honest clients the registries name sessions of the right kind. */
  predicate RegistriesOk(g: Registries, strict: bool) {
    && (forall id | id in g.live :: id in g.stored && id in g.roles)
    && (strict ==>
          && (forall k | k in g.managers :: LinkOf(g, k, g.managers[k]))
          && (forall d | d in g.devices :: RoleOf(g, g.devices[d]) == Some(DeviceLink(d.0, d.1)))
          && (forall d | d in g.subscribers :: forall i | 0 <= i < |g.subscribers[d]| ::
                HomeAtManager(g, d.0, g.subscribers[d][i])))
  }

  /** What clients are written: no requests, and metadata only in notifications of a manager to its own
      clients; these carry the profile key of the manager. */
  predicate CleanFrame(cfg: Config, g: Registries, f: Frame) {
    match RoleOf(g, f.to)
    case Some(Client) => !IsRequest(f.message) && "metadata" !in f.message
    case Some(LocalClient(k)) => ReplyOrNotify(cfg, k, f.message)
    case Some(_) => true
    case None => false
  }

  predicate CleanFrames(cfg: Config, g: Registries, frames: seq<Frame>) {
    forall i | 0 <= i < |frames| :: CleanFrame(cfg, g, frames[i])
  }

  predicate Inv(cfg: Config, strict: bool, s: State) {
    && RegistriesOk(s.g, strict) && AllShaped(cfg, s.g, strict, s.flight)
    && (strict ==> CleanFrames(cfg, s.g, s.written)) && Conserved(s)
  }
}
