/** Who gets how far: a request that a handler works on is one that a client sent, its key was authenticated,
    and a command reaches a device only for somebody with access to it. */
module RelayAccess {
  import opened JsonValue
  import opened JsonRpc
  import opened Options
  import opened Relay
  import opened RelayRun
  import opened RelayShape
  import opened RelayHistory
  import opened RelayRegistered

  // ---------------------------------------------------------------- what happened before

  predicate SendsRequest(step: Step, c: Id, q: Request) {
    && step.ClientSends? && step.id == c && IsRequest(step.message)
    && ParseRequest(step.message).Parsed? && ParseRequest(step.message).value == q
  }

  /** `c` sent this request. */
  predicate Sent(steps: seq<Step>, c: Id, q: Request)
    decreases |steps|
  {
    steps != [] && (SendsRequest(steps[|steps| - 1], c, q) || Sent(steps[..|steps| - 1], c, q))
  }

  /** The second part of the key is the password that the database has for the login before the dot; for a
      login that it does not have, the password is empty. */
  predicate Matches(key: string, db: Answer) {
    && db.Found? && |Split(key)| > 1
    && Split(key)[1] == match db.account { case Some(password) => password case None => "" }
  }

  predicate VouchesUser(p: Option<Packet>, db: Answer, k: Key, key: string) {
    match p
    case Some(UsersAuth(j, task)) =>
      j == k && TextAt(task.request.metadata, "user-key") == Some(key) && Matches(key, db)
    case _ => false
  }

  /** The database of the manager confirmed the key of a user. */
  predicate Vouched(cfg: Config, steps: seq<Step>, k: Key, key: string)
    decreases |steps|
  {
    && steps != []
    && var before, step := steps[..|steps| - 1], steps[|steps| - 1];
       || (step.Deliver? && VouchesUser(Last(cfg, steps), step.db, k, key))
       || Vouched(cfg, before, k, key)
  }

  predicate VouchesProfile(p: Option<Packet>, db: Answer, key: string) {
    match p
    case Some(ProfileAuth(task)) => TextAt(task.request.metadata, "profile-key") == Some(key) && Matches(key, db)
    case _ => false
  }

  /** The database of the platform confirmed a profile key. */
  predicate ProfileVouched(cfg: Config, steps: seq<Step>, key: string)
    decreases |steps|
  {
    && steps != []
    && var before, step := steps[..|steps| - 1], steps[|steps| - 1];
       || (step.Deliver? && VouchesProfile(Last(cfg, steps), step.db, key))
       || ProfileVouched(cfg, before, key)
  }

  predicate Grants(p: Option<Packet>, db: Answer, k: Key, key: string, d: Key) {
    match p
    case Some(Call(j, service, name, task)) =>
      && j == k && service == "subscriptions" && name == "groups"
      && TextAt(task.request.metadata, "user-key") == Some(key)
      && TextAt(task.request.metadata, "device-key") == Some(d)
      && db.Found? && db.count > 0
    case _ => false
  }

  /** The database of the manager counted a group of the user among those of the device. */
  predicate Granted(cfg: Config, steps: seq<Step>, k: Key, key: string, d: Key)
    decreases |steps|
  {
    && steps != []
    && var before, step := steps[..|steps| - 1], steps[|steps| - 1];
       || (step.Deliver? && Grants(Last(cfg, steps), step.db, k, key, d))
       || Granted(cfg, before, k, key, d)
  }

  /** The device was registered under this session. */
  predicate WasRegistered(cfg: Config, steps: seq<Step>, k: Key, d: Key, id: Id)
    decreases |steps|
  {
    || Registered(Run(cfg, INITIAL, steps).g.devices, (k, d)) == Some(id)
    || (steps != [] && WasRegistered(cfg, steps[..|steps| - 1], k, d, id))
  }

  // ---------------------------------------------------------------- what a packet rests on

  /** The same request further on: handlers change other metadata only. */
  predicate Follows(q: Request, r: Request) {
    && FollowsLoosely(q, r) && q.params == r.params
  }

  predicate FollowsLoosely(q: Request, r: Request) {
    && q.id == r.id && q.method_ == r.method_
    && ("user-key" in q.metadata <==> "user-key" in r.metadata)
    && ("manager-key" in q.metadata <==> "manager-key" in r.metadata)
    && ("profile-key" in q.metadata <==> "profile-key" in r.metadata)
    && TextAt(q.metadata, "user-key") == TextAt(r.metadata, "user-key")
    && TextAt(q.metadata, "manager-key") == TextAt(r.metadata, "manager-key")
    && TextAt(q.metadata, "profile-key") == TextAt(r.metadata, "profile-key")
    && TextAt(q.metadata, "device-key") == TextAt(r.metadata, "device-key")
  }

  ghost predicate Asked(steps: seq<Step>, c: Id, r: Request) {
    exists q :: Sent(steps, c, q) && Follows(q, r)
  }

  ghost predicate AskedLoosely(steps: seq<Step>, c: Id, r: Request) {
    exists q :: Sent(steps, c, q) && FollowsLoosely(q, r)
  }

  /** The key of the task was confirmed, or is the profile key of the manager. */
  ghost predicate Known(cfg: Config, steps: seq<Step>, k: Key, task: Task) {
    match TextAt(task.request.metadata, "user-key")
    case None => false
    case Some(key) =>
      && (Stored(task, "user.admin") == "1" <==> key == cfg(k)) && Stored(task, "user.login") == Split(key)[0]
      && (key == cfg(k) || Vouched(cfg, steps, k, key))
  }

  ghost predicate KnownProfile(cfg: Config, steps: seq<Step>, task: Task) {
    match TextAt(task.request.metadata, "profile-key")
    case None => false
    case Some(key) => Stored(task, "profile.login") == Split(key)[0] && ProfileVouched(cfg, steps, key)
  }

  /** The methods of users through which a handler can be reached without the profile key of the manager. */
  function MethodsFor(service: string, name: string): set<string> {
    if service == "devices" then
      if name == "list" then {"devices.list"}
      else if name == "detail" then {"devices.detail"}
      else if name == "control" || name == "request" then {"devices.control"}
      else if name == "subscribe" then {"devices.subscribe"}
      else if name == "unsubscribe" then {"devices.unsubscribe"}
      else {}
    else if service == "connections" then
      if name == "devices" then {"devices.control"}
      else if name == "groups" then {"subscriptions.devices"}
      else if name == "subscribe" then {"devices.subscribe", "connections.subscribe"}
      else if name == "unsubscribe" then {"devices.unsubscribe", "connections.unsubscribe"}
      else {}
    else if service == "subscriptions" then
      if name == "devices" then {"subscriptions.devices"}
      else if name == "groups" then {"devices.control"}
      else if name == "on" then {"devices.subscribe", "connections.subscribe"}
      else if name == "off" then {"devices.unsubscribe", "connections.unsubscribe"}
      else {}
    else {}
  }

  predicate AboutDevice(service: string, name: string) {
    (service == "connections" && name == "devices") || (service == "subscriptions" && name == "groups")
  }

  /** Without the profile key a user stays with the methods of users, and needs access to a device before it is
      asked anything. */
  ghost predicate Permitted(cfg: Config, steps: seq<Step>, k: Key, service: string, name: string, task: Task) {
    match TextAt(task.request.metadata, "user-key")
    case None => false
    case Some(key) =>
      || key == cfg(k)
      || (&& task.request.method_ in MethodsFor(service, name)
          && (AboutDevice(service, name) ==> TextAt(task.request.metadata, "device-key").Some?)
          && (service == "devices" && name == "request" ==>
                match TextAt(task.request.metadata, "device-key")
                case None => false
                case Some(d) => Granted(cfg, steps, k, key, d)))
  }

  /** Without any key there are the guests' methods. */
  predicate GuestCall(service: string, name: string, method_: string) {
    || (service == "users" && name == "login" && method_ == "users.login")
    || (service == "manager" && name == "info" && method_ == "manager.info")
  }

  predicate PlatformGuestCall(service: string, name: string, method_: string) {
    || (service == "profile" && name == "signup" && method_ == "profile.signup")
    || (service == "profile" && name == "login" && method_ == "profile.login")
    || (service == "manager" && name == "info" && method_ == "manager.info")
  }

  /** A client asked for this action of a device, with a key that may do so, and `link` is or was the
      session of that device. */
  ghost predicate Commands(cfg: Config, steps: seq<Step>, q: Request, k: Key, d: Key, link: Id, c: Id, id: Value,
                           action: string) {
    && Sent(steps, c, q) && q.id == id && Param(q, "action") == Some(action)
    && TextAt(q.metadata, "device-key") == Some(d) && WasRegistered(cfg, steps, k, d, link)
    && match TextAt(q.metadata, "user-key")
       case None => false
       case Some(key) =>
         || key == cfg(k)
         || (q.method_ == "devices.control" && Vouched(cfg, steps, k, key) && Granted(cfg, steps, k, key, d))
  }

  ghost predicate Commanded(cfg: Config, steps: seq<Step>, link: Id, c: Id, id: Value, action: string) {
    exists q: Request, k: Key, d: Key :: Commands(cfg, steps, q, k, d, link, c, id, action)
  }

  /** A request of a manager for a device is a command of a client. */
  ghost predicate CommandFrame(cfg: Config, steps: seq<Step>, link: Id, m: Fields) {
    && ParseRequest(m).Parsed? && TransportOf(m).Some?
    && var r := ParseRequest(m).value;
       && r.metadata.Keys == {"transport"}
       && Commanded(cfg, steps, link, TransportOf(m).value, r.id, r.method_)
  }

  predicate Keyless(m: Fields) {
    ParseRequest(m).Parsed? ==>
      "manager-key" !in ParseRequest(m).value.metadata && "profile-key" !in ParseRequest(m).value.metadata
  }

  ghost predicate TaskAtPlatform(steps: seq<Step>, task: Task) {
    "manager-key" !in task.request.metadata && Asked(steps, task.transportId, task.request)
  }

  ghost predicate TaskAtManager(cfg: Config, steps: seq<Step>, k: Key, task: Task) {
    Asked(steps, task.transportId, task.request) && Stored(task, "profile.key") == cfg(k) && Routed(task)
  }

  ghost predicate Backed(cfg: Config, steps: seq<Step>, p: Packet) {
    match p
    case AtPlatform(from, m) =>
      IsRequest(m) && ParseRequest(m).Parsed? ==> Keyless(m) || Asked(steps, from, ParseRequest(m).value)
    case ManagersRequest(task) =>
      "manager-key" in task.request.metadata ==> Asked(steps, task.transportId, task.request)
    case ProfileAuth(task) =>
      && TaskAtPlatform(steps, task) && Routed(task) && "profile-key" in task.request.metadata
      && ("profile.login" in task.storage ==> KnownProfile(cfg, steps, task))
    case PlatformService(task) => TaskAtPlatform(steps, task) && Routed(task) && KnownProfile(cfg, steps, task)
    case PlatformCall(service, name, task) =>
      if "profile-key" in task.request.metadata then
        TaskAtPlatform(steps, task) && Routed(task) && KnownProfile(cfg, steps, task)
      else "manager-key" !in task.request.metadata && PlatformGuestCall(service, name, task.request.method_)
    case ManagersResponse(m) => !IsRequest(m)
    case PlatformWrite(_, m) => RelayedBacked(steps, m)
    case AtPlatformClient(_, m) => RelayedBacked(steps, m)
    case AtManager(k, from, m) => IsRequest(m) && ParseRequest(m).Parsed? ==> Asked(steps, from, ParseRequest(m).value)
    case UsersAuth(k, task) =>
      && TaskAtManager(cfg, steps, k, task) && "user-key" in task.request.metadata
      && LoginFits(task)
    case Service(k, task) => TaskAtManager(cfg, steps, k, task) && Known(cfg, steps, k, task)
    case Call(k, service, name, task) =>
      && (if service == "connections" && name == "groups" then AskedLoosely(steps, task.transportId, task.request)
          else Asked(steps, task.transportId, task.request))
      && Stored(task, "profile.key") == cfg(k) && Routed(task)
      && if "user-key" in task.request.metadata then
           Known(cfg, steps, k, task) && Permitted(cfg, steps, k, service, name, task)
         else GuestCall(service, name, task.request.method_)
    case ManagerWrite(_, to, m) => IsRequest(m) ==> CommandFrame(cfg, steps, to, m)
    case PlatformPipe(_, _, m) =>
      IsRequest(m) ==> ParseRequest(m).Parsed? && ParseRequest(m).value.metadata.Keys == {"transport"}
    case AtDevice(link, m) => IsRequest(m) ==> CommandFrame(cfg, steps, link, m)
    case Control(link, name, task) =>
      && ActionOf(task.request.method_, name)
      && Commanded(cfg, steps, link, task.transportId, task.request.id, task.request.method_)
    case _ => true
  }

  /** A login that is stored already is that of the key. */
  predicate LoginFits(task: Task) {
    match TextAt(task.request.metadata, "user-key")
    case None => "user.login" !in task.storage
    case Some(key) => "user.login" in task.storage ==> task.storage["user.login"] == Split(key)[0]
  }

  ghost predicate RelayedBacked(steps: seq<Step>, m: Fields) {
    IsRequest(m) && ParseRequest(m).Parsed? && TransportOf(m).Some? ==>
      Asked(steps, TransportOf(m).value, ParseRequest(m).value)
  }

  /** `control.` and a name, with anything behind another dot. */
  predicate ActionOf(action: string, name: string) {
    name in {"on", "off", "status"} && (action == "control." + name || "control." + name + "." <= action)
  }
}
