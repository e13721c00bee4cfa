/** Every run keeps what `RelayAccess` says of the packets in flight. */
module RelayAuthority {
  import opened JsonValue
  import opened JsonRpc
  import opened Options
  import opened Relay
  import opened RelayRun
  import opened RelayShape
  import opened RelayMessages
  import opened RelayInside
  import opened RelayInvariant
  import opened RelayHistory
  import opened RelayRegistered
  import opened RelayAccess

  // ---------------------------------------------------------------- the past does not change

  ghost predicate Later(cfg: Config, steps: seq<Step>, more: seq<Step>) {
    && (forall c: Id, q: Request :: Sent(steps, c, q) ==> Sent(more, c, q))
    && (forall k: Key, key: string :: Vouched(cfg, steps, k, key) ==> Vouched(cfg, more, k, key))
    && (forall key: string :: ProfileVouched(cfg, steps, key) ==> ProfileVouched(cfg, more, key))
    && (forall k: Key, key: string, d: Key :: Granted(cfg, steps, k, key, d) ==> Granted(cfg, more, k, key, d))
    && (forall k: Key, d: Key, id: Id :: WasRegistered(cfg, steps, k, d, id) ==> WasRegistered(cfg, more, k, d, id))
  }

  lemma OneLater(cfg: Config, more: seq<Step>)
    requires more != []
    ensures Later(cfg, more[..|more| - 1], more)
  {
    hide SendsRequest, VouchesUser, VouchesProfile, Grants, Last, Run, Registered;
  }

  lemma BackedPersists(cfg: Config, steps: seq<Step>, more: seq<Step>, p: Packet)
    requires Later(cfg, steps, more) && Backed(cfg, steps, p)
    ensures Backed(cfg, more, p)
  {
    AskedPersists(cfg, steps, more);
    CommandedPersists(cfg, steps, more);
    hide Sent, Vouched, ProfileVouched, Granted, WasRegistered, ParseRequest, Asked, AskedLoosely, Commanded, Split;
    hide TransportOf;
  }

  lemma AskedPersists(cfg: Config, steps: seq<Step>, more: seq<Step>)
    requires Later(cfg, steps, more)
    ensures forall c: Id, r: Request :: Asked(steps, c, r) ==> Asked(more, c, r)
    ensures forall c: Id, r: Request :: AskedLoosely(steps, c, r) ==> AskedLoosely(more, c, r)
  {
    hide Sent, Vouched, ProfileVouched, Granted, WasRegistered, FollowsLoosely;
  }

  lemma CommandedPersists(cfg: Config, steps: seq<Step>, more: seq<Step>)
    requires Later(cfg, steps, more)
    ensures forall link: Id, c: Id, id: Value, action: string ::
              Commanded(cfg, steps, link, c, id, action) ==> Commanded(cfg, more, link, c, id, action)
  {
    hide Sent, Vouched, ProfileVouched, Granted, WasRegistered;
    forall link: Id, c: Id, id: Value, action: string | Commanded(cfg, steps, link, c, id, action)
      ensures Commanded(cfg, more, link, c, id, action)
    {
      var q: Request, k: Key, d: Key :| Commands(cfg, steps, q, k, d, link, c, id, action);
      assert Commands(cfg, more, q, k, d, link, c, id, action);
    }
  }

  /** The caches hold keys that were confirmed, and the registry sessions that are registered. */
  ghost predicate Recorded(cfg: Config, steps: seq<Step>, g: Registries) {
    && (forall u | u in g.users :: Vouched(cfg, steps, u.0, u.1))
    && (forall key | key in g.profiles :: ProfileVouched(cfg, steps, key))
    && (forall d | d in g.devices :: WasRegistered(cfg, steps, d.0, d.1, g.devices[d]))
  }

  /** The last step of `h` delivers `p` with `db`, and `g` are the registries at that moment. */
  ghost predicate Now(cfg: Config, h: seq<Step>, g: Registries, p: Packet, db: Answer) {
    && h != [] && h[|h| - 1].Deliver? && h[|h| - 1].db == db && Last(cfg, h) == Some(p)
    && Recorded(cfg, h, g) && Backed(cfg, h, p)
  }

  ghost predicate AllBacked(cfg: Config, h: seq<Step>, packets: seq<Packet>) {
    forall q | q in packets :: Backed(cfg, h, q)
  }

  // ---------------------------------------------------------------- handlers of the platform

  lemma AskedOn(h: seq<Step>, c: Id, r: Request, t: Request)
    requires Asked(h, c, r) && Follows(r, t)
    ensures Asked(h, c, t)
  {
    hide Sent;
    var q :| Sent(h, c, q) && Follows(q, r);
    assert Follows(q, t);
  }

  lemma AnswerIsBacked(cfg: Config, h: seq<Step>, task: Task, text: string, result: Value)
    ensures AllBacked(cfg, h, PlatformRefuse(task, text)) && AllBacked(cfg, h, PlatformReply(task, result))
  {
    hide SerializeResponse, ParseRequest, Asked;
    ReplyFrame(task.request.id, Null, Some(RpcError(UNKNOWN_ERROR_CODE, text, Null)));
    ReplyFrame(task.request.id, result, None);
  }

  lemma EnteredIsBacked(cfg: Config, h: seq<Step>, from: Id, r: Request)
    requires Keyless(SerializeRequest(r)) || Asked(h, from, r)
    requires "manager-key" !in r.metadata && ("profile-key" in r.metadata ==> Asked(h, from, r))
    ensures AllBacked(cfg, h, EnterPlatform(from, r))
  {
    hide Split, PlatformRefuse, ParseRequest, Asked, ProfileVouched;
    AnswerIsBacked(cfg, h, Task(from, r, map[]), "not specified correctly method", Null);
    PlatformGuestMethods();
    var parts := Split(r.method_);
    if |parts| > 1 {
      var task := Task(from, r, map["service.name" := parts[0], "service.method" := parts[1]]);
      AnswerIsBacked(cfg, h, task, "access is denied", Null);
    }
  }

  lemma DispatchedIsBacked(cfg: Config, h: seq<Step>, from: Id, m: Fields)
    requires Backed(cfg, h, AtPlatform(from, m))
    ensures AllBacked(cfg, h, PlatformDispatcher(from, m))
  {
    hide EnterPlatform, Asked;
    if IsRequest(m) && ParseRequest(m).Parsed? {
      var r := ParseRequest(m).value;
      if "manager-key" !in r.metadata {
        RequestFrame(r);
        hide ParseRequest, SerializeRequest, AllBacked;
        EnteredIsBacked(cfg, h, from, r);
      }
    }
  }

  lemma ProfileIsBacked(cfg: Config, h: seq<Step>, g: Registries, task: Task, db: Answer)
    requires Now(cfg, h, g, ProfileAuth(task), db)
    ensures AllBacked(cfg, h, AuthenticateProfile(g, task, db))
  {
    hide Split, PlatformRefuse, ParseRequest, Asked, Run, Vouched, WasRegistered;
    AnswerIsBacked(cfg, h, task, if db.Failed? then db.what else "authentication bad", Null);
  }

  lemma RoutedIsBacked(cfg: Config, h: seq<Step>, task: Task)
    requires Backed(cfg, h, PlatformService(task))
    ensures AllBacked(cfg, h, RouteOnPlatform(task))
  {
    hide Split, PlatformRefuse, ParseRequest, Asked, ProfileVouched, PlatformHandlers;
    AnswerIsBacked(cfg, h, task, "service not found", Null);
    AnswerIsBacked(cfg, h, task, "method not found", Null);
  }

  lemma ServedOnPlatformIsBacked(cfg: Config, h: seq<Step>, g: Registries, service: string, name: string, task: Task,
                                 db: Answer)
    requires Backed(cfg, h, PlatformCall(service, name, task))
    ensures AllBacked(cfg, h, ServeOnPlatform(g, service, name, task, db))
  {
    hide Split, PlatformRefuse, PlatformReply, ParseRequest, Asked, ProfileVouched, Readable, SerializeRequest, Param;
    AnswerIsBacked(cfg, h, task, if db.Failed? then db.what else "manager not found", Bool(true));
    AnswerIsBacked(cfg, h, task, "key manager empty", Arr(if db.Found? then db.rows else []));
    FarewellFrame(task.request.id);
  }

  lemma RelayedIsBacked(cfg: Config, h: seq<Step>, managers: map<Key, Id>, task: Task)
    requires Backed(cfg, h, ManagersRequest(task))
    ensures AllBacked(cfg, h, RequestToManager(managers, task))
  {
    hide PlatformRefuse, ParseRequest, SerializeRequest, Asked;
    AnswerIsBacked(cfg, h, task, "manager not connection", Null);
    var marked := task.request.(metadata := task.request.metadata["transport" := Str(task.transportId)]);
    RequestFrame(marked);
    if "manager-key" in task.request.metadata {
      AskedOn(h, task.transportId, task.request, marked);
    }
  }

  lemma AnsweredIsBacked(cfg: Config, h: seq<Step>, m: Fields)
    requires Backed(cfg, h, ManagersResponse(m))
    ensures AllBacked(cfg, h, ResponseToClient(m))
  {
    StrippedFrame(m);
    hide ParseRequest, Asked;
  }

  lemma ArrivedIsBacked(cfg: Config, h: seq<Step>, k: Key, m: Fields)
    requires Backed(cfg, h, AtPlatformClient(k, m))
    ensures AllBacked(cfg, h, FromPlatform(k, m))
  {
    hide ParseRequest, Asked;
    if IsRequest(m) && ParseRequest(m).Parsed? {
      ReadFrame(m);
    }
  }

  // ---------------------------------------------------------------- handlers of a manager

  lemma PlainIsBacked(cfg: Config, h: seq<Step>, k: Key, outs: seq<Packet>)
    requires AllInside(k, outs) && forall q | q in outs && Inner(k, q) :: Backed(cfg, h, q)
    ensures AllBacked(cfg, h, outs)
  {
    hide CommandFrame, TaskAtManager, Known, Permitted;
    forall q | q in outs ensures Backed(cfg, h, q) {
      var i :| 0 <= i < |outs| && outs[i] == q;
      assert Inside(k, outs[i]);
    }
  }

  /** A request enters the router of a manager with a key, or as a guest. */
  lemma TaskIsBacked(cfg: Config, h: seq<Step>, k: Key, task: Task)
    requires Asked(h, task.transportId, task.request) && Routed(task) && Stored(task, "profile.key") == cfg(k)
    requires "user.login" !in task.storage
    ensures "user-key" in task.request.metadata ==> Backed(cfg, h, UsersAuth(k, task))
    ensures "user-key" !in task.request.metadata && task.request.method_ in GUESTS ==>
              Backed(cfg, h, Call(k, Stored(task, "service.name"), Stored(task, "service.method"), task))
  {
    hide Asked, Split, Known, Permitted;
    GuestMethods();
  }

  lemma TakenInIsBacked(cfg: Config, h: seq<Step>, k: Key, from: Id, m: Fields)
    requires Backed(cfg, h, AtManager(k, from, m))
    ensures AllBacked(cfg, h, ManagerDispatcher(cfg, k, from, m))
  {
    hide Asked, Split, ParseRequest, AllInside, Known, Permitted, SerializeResponse;
    if IsRequest(m) {
      RoutedIsInside(cfg, k, from, m);
      var outs := ManagerDispatcher(cfg, k, from, m);
      if ParseRequest(m).Parsed? {
        var r := ParseRequest(m).value;
        var parts := Split(r.method_);
        if |parts| > 1 {
          var task := Task(from, r, map["service.name" := parts[0], "service.method" := parts[1],
                                        "profile.key" := cfg(k)]);
          TaskIsBacked(cfg, h, k, task);
        }
      }
      hide Backed;
      assert forall q | q in outs && Inner(k, q) :: Backed(cfg, h, q);
      PlainIsBacked(cfg, h, k, outs);
    }
  }

  lemma LetInIsKnown(cfg: Config, h: seq<Step>, g: Registries, k: Key, task: Task, db: Answer)
    requires Now(cfg, h, g, UsersAuth(k, task), db)
    ensures forall q | q in Authenticate(g, k, task, db) && Inner(k, q) :: Backed(cfg, h, q)
  {
    hide Split, SerializeResponse, Asked, Run, ProfileVouched, WasRegistered, Permitted;
  }

  lemma AuthenticatedIsBacked(cfg: Config, h: seq<Step>, g: Registries, k: Key, task: Task, db: Answer)
    requires Now(cfg, h, g, UsersAuth(k, task), db)
    ensures AllBacked(cfg, h, Authenticate(g, k, task, db))
  {
    LetInIsKnown(cfg, h, g, k, task, db);
    AuthIsInside(g, k, task, db);
    hide Authenticate, Backed, AllInside, Now;
    PlainIsBacked(cfg, h, k, Authenticate(g, k, task, db));
  }

  /** The methods of users lead to handlers that are for them. */
  lemma UserMethodFits(method_: string)
    requires method_ in USER_METHODS && |Split(method_)| > 1
    ensures var service, name := Split(method_)[0], Split(method_)[1];
            method_ in MethodsFor(service, name) && !AboutDevice(service, name)
            && !(service == "devices" && name == "request") && !(service == "connections" && name == "groups")
  {
    hide Split;
    DeviceMethods();
    ConnectionMethods();
    SubscriptionMethods();
  }

  lemma AskedIsLoose(h: seq<Step>, c: Id, r: Request)
    requires Asked(h, c, r)
    ensures AskedLoosely(h, c, r)
  {
    hide Sent, FollowsLoosely;
  }

  lemma ServiceIsBacked(cfg: Config, h: seq<Step>, k: Key, task: Task)
    requires Backed(cfg, h, Service(k, task))
    ensures AllBacked(cfg, h, RouteToService(k, task))
  {
    hide Split, SerializeResponse, Asked, AskedLoosely, Vouched, Handlers, MethodsFor, AboutDevice, AllInside, Granted;
    ServiceIsInside(k, task);
    AskedIsLoose(h, task.transportId, task.request);
    if task.request.method_ in USER_METHODS {
      UserMethodFits(task.request.method_);
    }
    PlainIsBacked(cfg, h, k, RouteToService(k, task));
  }

  /** Which handler comes after which. */
  predicate Follower(service: string, name: string, next: string, after: string) {
    || (service == "devices" && name == "control" && next == "connections" && after == "devices")
    || (service == "connections" && name == "devices" && next == "subscriptions" && after == "groups")
    || (service == "subscriptions" && name == "groups" && next == "devices" && after == "request")
    || (service == "devices" && name == "subscribe" && next == "connections" && after == "subscribe")
    || (service == "devices" && name == "unsubscribe" && next == "connections" && after == "unsubscribe")
    || (service == "connections" && name == "subscribe" && next == "subscriptions" && after == "on")
    || (service == "connections" && name == "unsubscribe" && next == "subscriptions" && after == "off")
    || (service == "subscriptions" && name == "devices" && next == "connections" && after == "groups")
  }

  /** The request goes on as it is, but for the parameters of the last query. */
  predicate GoesOn(k: Key, service: string, name: string, task: Task, db: Answer, q: Packet) {
    match q
    case UsersAuth(j, t) => j == k && service == "users" && name == "auth" && t == task
    case Call(j, next, after, t) =>
      && j == k && Follower(service, name, next, after)
      && t.transportId == task.transportId && t.storage == task.storage
      && (if service == "subscriptions" && name == "devices" then FollowsLoosely(task.request, t.request)
          else Follows(task.request, t.request))
      && (AboutDevice(next, after) ==> TextAt(task.request.metadata, "device-key").Some?)
      && (next == "devices" && after == "request" ==>
            db.Found? && (db.count > 0 || Stored(task, "user.admin") == "1"))
    case _ => false
  }

  lemma AnswersStay(g: Registries, k: Key, task: Task, db: Answer)
    ensures forall q | q in AnswerOn(g, k, task, db) || q in AnswerOff(g, k, task) || q in ConnectDevice(k, task, db) ::
              q.ManagerWrite?
    ensures forall q | q in RequestToDevice(g, k, task) :: q.ManagerWrite?
  {
    hide SerializeResponse, SerializeRequest, Param, ParamItems, AllText, AcceptsDevice, GroupsOf;
  }

  lemma GroupsGoOn(k: Key, task: Task, db: Answer)
    ensures forall q | q in CheckAccess(k, task, db) && Inner(k, q) :: GoesOn(k, "subscriptions", "groups", task, db, q)
    ensures TextAt(task.request.metadata, "device-key").Some? ==>
              forall q | q in WithGroups(k, task, db, "groups") && Inner(k, q) ::
                GoesOn(k, "connections", "devices", task, db, q)
    ensures forall q | q in WithGroups(k, task, db, "on") && Inner(k, q) ::
              GoesOn(k, "connections", "subscribe", task, db, q)
  {
    hide SerializeResponse, AllText;
  }

  lemma ServedGoesOn(g: Registries, k: Key, service: string, name: string, task: Task, db: Answer)
    ensures forall q | q in Serve(g, k, service, name, task, db) && Inner(k, q) :: GoesOn(k, service, name, task, db, q)
  {
    AnswersStay(g, k, task, db);
    GroupsGoOn(k, task, db);
    hide SerializeResponse, Param, Readable, AnswerOn, AnswerOff, ConnectDevice, RequestToDevice, CheckAccess;
    hide WithGroups;
  }

  lemma AskedLooselyOn(h: seq<Step>, c: Id, r: Request, t: Request)
    requires AskedLoosely(h, c, r) && FollowsLoosely(r, t)
    ensures AskedLoosely(h, c, t)
  {
    hide Sent;
    var q :| Sent(h, c, q) && FollowsLoosely(q, r);
    assert FollowsLoosely(q, t);
  }

  /** Handlers of users lead to handlers of the same methods. */
  lemma FollowerFits(service: string, name: string, next: string, after: string)
    requires Follower(service, name, next, after)
    ensures MethodsFor(service, name) <= MethodsFor(next, after)
    ensures !GuestCall(service, name, "users.login") && !GuestCall(service, name, "manager.info")
    ensures (next == "connections" && after == "groups") <==> (service == "subscriptions" && name == "devices")
    ensures (next == "devices" && after == "request") <==> (service == "subscriptions" && name == "groups")
    ensures !(service == "connections" && name == "groups")
  {
  }

  /** A user who has no profile key comes to `devices.request` with a group of the device only. */
  lemma AccessIsGranted(cfg: Config, h: seq<Step>, g: Registries, k: Key, task: Task, db: Answer, q: Packet)
    requires Now(cfg, h, g, Call(k, "subscriptions", "groups", task), db)
    requires GoesOn(k, "subscriptions", "groups", task, db, q) && q.Call?
    requires "user-key" in task.request.metadata && TextAt(task.request.metadata, "user-key").value != cfg(k)
    ensures TextAt(task.request.metadata, "device-key").Some?
    ensures Granted(cfg, h, k, TextAt(task.request.metadata, "user-key").value,
                    TextAt(task.request.metadata, "device-key").value)
  {
    hide Last, Run, Sent, Vouched, ProfileVouched, WasRegistered, Split, Asked, FollowsLoosely;
  }

  /** Another request with the same keys is as well known. */
  lemma KnownGoesOn(cfg: Config, h: seq<Step>, k: Key, task: Task, t: Task)
    requires Known(cfg, h, k, task) && t.storage == task.storage && FollowsLoosely(task.request, t.request)
    ensures Known(cfg, h, k, t)
  {
    hide Vouched, Split;
  }

  lemma AskedGoesOn(cfg: Config, h: seq<Step>, k: Key, service: string, name: string, task: Task, db: Answer, q: Packet)
    requires Backed(cfg, h, Call(k, service, name, task)) && GoesOn(k, service, name, task, db, q) && q.Call?
    ensures FollowsLoosely(task.request, q.task.request)
    ensures if q.service == "connections" && q.method_ == "groups" then
              AskedLoosely(h, q.task.transportId, q.task.request)
            else Asked(h, q.task.transportId, q.task.request)
  {
    FollowerFits(service, name, q.service, q.method_);
    hide Known, Permitted, Split, Asked, AskedLoosely, Follower, FollowsLoosely;
    if service == "subscriptions" && name == "devices" {
      AskedIsLoose(h, task.transportId, task.request);
      AskedLooselyOn(h, task.transportId, task.request, q.task.request);
    } else {
      AskedOn(h, task.transportId, task.request, q.task.request);
    }
  }

  lemma PermittedGoesOn(cfg: Config, h: seq<Step>, g: Registries, k: Key, service: string, name: string, task: Task,
                        db: Answer, q: Packet)
    requires Now(cfg, h, g, Call(k, service, name, task), db) && GoesOn(k, service, name, task, db, q) && q.Call?
    requires "user-key" in task.request.metadata && FollowsLoosely(task.request, q.task.request)
    ensures Permitted(cfg, h, k, q.service, q.method_, q.task)
  {
    FollowerFits(service, name, q.service, q.method_);
    if service == "subscriptions" && name == "groups" && TextAt(task.request.metadata, "user-key").value != cfg(k) {
      AccessIsGranted(cfg, h, g, k, task, db, q);
    }
    hide Last, Run, Vouched, Recorded, Split, Asked, AskedLoosely, Granted, MethodsFor, AboutDevice;
  }

  lemma WentOnIsBacked(cfg: Config, h: seq<Step>, g: Registries, k: Key, service: string, name: string, task: Task,
                       db: Answer, q: Packet)
    requires Now(cfg, h, g, Call(k, service, name, task), db) && GoesOn(k, service, name, task, db, q) && q.Call?
    ensures Backed(cfg, h, q)
  {
    FollowerFits(service, name, q.service, q.method_);
    AskedGoesOn(cfg, h, k, service, name, task, db, q);
    if "user-key" in task.request.metadata {
      PermittedGoesOn(cfg, h, g, k, service, name, task, db, q);
      KnownGoesOn(cfg, h, k, task, q.task);
    }
    hide Last, Recorded, Known, Permitted, Split, Asked, AskedLoosely, Follower, Follows;
  }

  lemma AuthAgainIsBacked(cfg: Config, h: seq<Step>, k: Key, task: Task)
    requires Backed(cfg, h, Call(k, "users", "auth", task))
    ensures Backed(cfg, h, UsersAuth(k, task))
  {
    hide Split, Asked, AskedLoosely, Vouched, Permitted;
  }

  lemma ServedIsBacked(cfg: Config, h: seq<Step>, g: Registries, k: Key, service: string, name: string, task: Task,
                       db: Answer)
    requires Now(cfg, h, g, Call(k, service, name, task), db) && !(service == "devices" && name == "request")
    ensures AllBacked(cfg, h, Serve(g, k, service, name, task, db))
  {
    ServedIsInside(g, k, service, name, task, db);
    ServedGoesOn(g, k, service, name, task, db);
    hide Serve, Last, Recorded, Backed, AllInside, Follower;
    var outs := Serve(g, k, service, name, task, db);
    forall q | q in outs && Inner(k, q) ensures Backed(cfg, h, q) {
      if q.Call? {
        WentOnIsBacked(cfg, h, g, k, service, name, task, db, q);
      } else {
        AuthAgainIsBacked(cfg, h, k, task);
      }
    }
    PlainIsBacked(cfg, h, k, outs);
  }

  /** Whoever gets as far as `devices.request` commands the device. */
  lemma CommandIsAsked(cfg: Config, h: seq<Step>, g: Registries, k: Key, task: Task, d: Key, action: string)
    requires Backed(cfg, h, Call(k, "devices", "request", task)) && Recorded(cfg, h, g)
    requires TextAt(task.request.metadata, "device-key") == Some(d) && (k, d) in g.devices
    requires Param(task.request, "action") == Some(action)
    ensures Commanded(cfg, h, g.devices[(k, d)], task.transportId, task.request.id, action)
  {
    hide Split, Sent, Run, Vouched, ProfileVouched, Granted, Registered, WasRegistered, Routed;
    var q :| Sent(h, task.transportId, q) && Follows(q, task.request);
    assert Commands(cfg, h, q, k, d, g.devices[(k, d)], task.transportId, task.request.id, action);
  }

  lemma RequestedIsBacked(cfg: Config, h: seq<Step>, g: Registries, k: Key, task: Task)
    requires Backed(cfg, h, Call(k, "devices", "request", task)) && Recorded(cfg, h, g)
    ensures AllBacked(cfg, h, RequestToDevice(g, k, task))
  {
    hide Split, Asked, Known, Permitted, Recorded, Refuse, SerializeRequest, ParseRequest, Commanded, Param, AllInside;
    var outs := RequestToDevice(g, k, task);
    var device := TextAt(task.request.metadata, "device-key");
    if device.Some? {
      if (k, device.value) in g.devices {
        var action := Param(task.request, "action");
        if action.Some? {
          RequestFrame(Request(task.request.id, action.value, Null, map["transport" := Str(task.transportId)]));
          CommandIsAsked(cfg, h, g, k, task, device.value, action.value);
        }
      } else {
        RefusalIsInside(k, task, "device not connected");
        RefusalIsPlain(cfg, h, k, task, "device not connected");
      }
    }
  }

  lemma RefusalIsPlain(cfg: Config, h: seq<Step>, k: Key, task: Task, text: string)
    ensures AllBacked(cfg, h, Refuse(k, task, text))
  {
    RefusalIsInside(k, task, text);
    hide SerializeResponse, CommandFrame, AllInside;
    PlainIsBacked(cfg, h, k, Refuse(k, task, text));
  }

  // ---------------------------------------------------------------- answers, and the way to a device

  lemma DeviceAnswerIsBacked(cfg: Config, h: seq<Step>, g: Registries, k: Key, m: Fields)
    ensures AllBacked(cfg, h, ResponseFromDevice(g, k, m)) && AllBacked(cfg, h, NotifyFromDevice(g, k, m))
  {
    StrippedFrame(m);
    hide CommandFrame;
  }

  lemma {:induction false} CopiesAreBacked(cfg: Config, h: seq<Step>, k: Key, m: Fields, ids: seq<Id>)
    requires NoId(m) && "metadata" in m && m["metadata"].Obj?
    ensures AllBacked(cfg, h, Copies(k, m, ids))
  {
    hide CommandFrame;
    if ids != [] {
      CopiesAreBacked(cfg, h, k, m, ids[1..]);
    }
  }

  lemma EmittedIsBacked(cfg: Config, h: seq<Step>, g: Registries, k: Key, m: Fields)
    requires NoId(m)
    ensures AllBacked(cfg, h, EmitToSubscribers(g, k, m))
  {
    hide Backed;
    if MetadataText(m, "device-key").Some? && (k, MetadataText(m, "device-key").value) in g.subscribers {
      CopiesAreBacked(cfg, h, k, m, g.subscribers[(k, MetadataText(m, "device-key").value)]);
    }
  }

  lemma WrittenIsBacked(cfg: Config, h: seq<Step>, g: Registries, k: Key, to: Id, m: Fields)
    requires Backed(cfg, h, ManagerWrite(k, to, m))
    ensures AllBacked(cfg, h, WriteAtManager(g, k, to, m))
  {
    hide Commanded, ParseRequest;
  }

  lemma PlatformWrittenIsBacked(cfg: Config, h: seq<Step>, g: Registries, to: Id, m: Fields)
    requires Backed(cfg, h, PlatformWrite(to, m))
    ensures AllBacked(cfg, h, WriteAtPlatform(g, to, m))
  {
    hide RelayedBacked;
  }

  lemma PipedIsBacked(cfg: Config, h: seq<Step>, g: Registries, k: Key, via: Id, to: Id, m: Fields)
    requires Backed(cfg, h, PlatformPipe(k, to, m))
    ensures AllBacked(cfg, h, ToPlatform(g, k, via, to, m))
  {
    var given := if "metadata" in m && m["metadata"].Obj? then m["metadata"].fields else map[];
    var metadata := if Contains(m, "transport") then given else given["transport" := Str(to)];
    MarkedFrame(m, metadata);
    if IsRequest(m) {
      MarkedRequest(m, metadata);
      if "metadata" in m {
        ReadMetadata(m);
      }
    }
    hide ParseRequest, Asked;
  }

  lemma ActionIsRead(action: string)
    requires |Split(action)| > 1 && Split(action)[0] == "control" && Split(action)[1] in CONTROLS
    ensures ActionOf(action, Split(action)[1])
  {
    SplitHead(action);
    hide Split;
    var rest :| action == "control" + "." + rest && Split(action)[1..] == Split(rest);
    assert Split(action)[1] == Split(action)[1..][0] == Split(rest)[0];
    SplitHead(rest);
    NamedAction(action, rest, Split(action)[1]);
  }

  lemma NamedAction(action: string, rest: string, name: string)
    requires action == "control" + "." + rest && name in CONTROLS
    requires rest == name || exists more :: rest == name + "." + more
    ensures ActionOf(action, name)
  {
    assert "control" + "." == "control.";
    if rest != name {
      var more :| rest == name + "." + more;
      assert action == "control." + name + "." + more;
    }
  }

  lemma CommandArrives(cfg: Config, h: seq<Step>, link: Id, m: Fields)
    requires Backed(cfg, h, AtDevice(link, m))
    ensures AllBacked(cfg, h, DeviceDispatcher(link, m))
  {
    hide Commanded, ParseRequest, Split, ActionOf;
    if IsRequest(m) && ParseRequest(m).Parsed? {
      var action := ParseRequest(m).value.method_;
      if |Split(action)| > 1 && Split(action)[0] == "control" && Split(action)[1] in CONTROLS {
        ActionIsRead(action);
      }
    }
  }

  lemma DeviceWritesNoRequest(cfg: Config, h: seq<Step>, k: Key, device: Key, link: Id, to: Id, m: Fields)
    requires !IsRequest(m)
    ensures AllBacked(cfg, h, FromDevice(cfg, k, device, link, to, m))
  {
    hide Asked, ParseRequest;
  }

  // ---------------------------------------------------------------- runs

  lemma CalledIsBacked(cfg: Config, h: seq<Step>, g: Registries, k: Key, service: string, name: string, task: Task,
                       db: Answer)
    requires Now(cfg, h, g, Call(k, service, name, task), db)
    ensures AllBacked(cfg, h, Serve(g, k, service, name, task, db))
  {
    if service == "devices" && name == "request" {
      RequestedIsBacked(cfg, h, g, k, task);
      hide Backed, Recorded, RequestToDevice, Last;
    } else {
      hide Backed, Recorded, Serve, Last;
      ServedIsBacked(cfg, h, g, k, service, name, task, db);
    }
  }

  lemma HandledIsBacked(cfg: Config, h: seq<Step>, g: Registries, p: Packet, db: Answer, via: Id)
    requires Now(cfg, h, g, p, db) && Bare(p)
    ensures AllBacked(cfg, h, Outputs(cfg, g, p, db, via))
  {
    hide Backed, Recorded, Last, AllBacked, PlatformDispatcher, ResponseToClient, RouteOnPlatform, Authenticate;
    hide FromPlatform, WriteAtPlatform, WriteAtManager, ToPlatform, DeviceDispatcher, ControlAnswers, RequestToManager;
    hide ManagerDispatcher, AuthenticateProfile, ServeOnPlatform, Serve, RouteToService, FromDevice;
    hide ResponseFromDevice, NotifyFromDevice;
    hide EmitToSubscribers;
    match p
    case AtPlatform(from, m) => DispatchedIsBacked(cfg, h, from, m);
    case ProfileAuth(task) => ProfileIsBacked(cfg, h, g, task, db);
    case PlatformService(task) => RoutedIsBacked(cfg, h, task);
    case PlatformCall(service, name, task) => ServedOnPlatformIsBacked(cfg, h, g, service, name, task, db);
    case ManagersRequest(task) => RelayedIsBacked(cfg, h, g.managers, task);
    case ManagersResponse(m) => AnsweredIsBacked(cfg, h, m);
    case PlatformWrite(to, m) => PlatformWrittenIsBacked(cfg, h, g, to, m);
    case AtPlatformClient(k, m) => ArrivedIsBacked(cfg, h, k, m);
    case AtManager(k, from, m) => TakenInIsBacked(cfg, h, k, from, m);
    case UsersAuth(k, task) => AuthenticatedIsBacked(cfg, h, g, k, task, db);
    case Service(k, task) => ServiceIsBacked(cfg, h, k, task);
    case Call(k, service, name, task) => CalledIsBacked(cfg, h, g, k, service, name, task, db);
    case DevicesResponse(k, m) => DeviceAnswerIsBacked(cfg, h, g, k, m);
    case DevicesNotify(k, m) => DeviceAnswerIsBacked(cfg, h, g, k, m);
    case Emit(k, m) => EmittedIsBacked(cfg, h, g, k, m);
    case ManagerWrite(k, to, m) => WrittenIsBacked(cfg, h, g, k, to, m);
    case PlatformPipe(k, to, m) => PipedIsBacked(cfg, h, g, k, via, to, m);
    case AtDevice(link, m) => CommandArrives(cfg, h, link, m);
    case Control(link, name, task) => ControlIsBacked(cfg, h, g, link, name, task);
    case DeviceWrite(link, to, m) =>
      match RoleOf(g, link) {
        case Some(DeviceLink(k, device)) => DeviceWritesNoRequest(cfg, h, k, device, link, to, m);
        case _ => NothingIsBacked(cfg, h);
      }
  }

  lemma NothingIsBacked(cfg: Config, h: seq<Step>)
    ensures AllBacked(cfg, h, [])
  {
  }

  lemma ControlIsBacked(cfg: Config, h: seq<Step>, g: Registries, link: Id, name: string, task: Task)
    ensures AllBacked(cfg, h, ControlAnswers(g, link, name, task))
  {
    hide SerializeResponse, SerializeNotify;
  }

  /** What the registries learn in the last step is part of the past. */
  lemma RecordedKept(cfg: Config, steps: seq<Step>)
    requires steps != []
    requires Recorded(cfg, steps[..|steps| - 1], Run(cfg, INITIAL, steps[..|steps| - 1]).g)
    ensures Recorded(cfg, steps, Run(cfg, INITIAL, steps).g)
  {
    hide Run, Last, Updated, Apply, VouchesUser, VouchesProfile, Sent, Granted, Registered;
    var before, step := steps[..|steps| - 1], steps[|steps| - 1];
    var s, t, last := Run(cfg, INITIAL, before), Run(cfg, INITIAL, steps), Last(cfg, steps);
    RunLast(cfg, steps);
    if last.Some? {
      CachesLearn(s.g, last.value, step.db);
    } else {
      CachesForget(cfg, s, step);
    }
    forall u | u in t.g.users ensures Vouched(cfg, steps, u.0, u.1) {
      hide ProfileVouched, WasRegistered;
    }
    forall key | key in t.g.profiles ensures ProfileVouched(cfg, steps, key) {
      hide Vouched, WasRegistered;
    }
    forall d | d in t.g.devices ensures WasRegistered(cfg, steps, d.0, d.1, t.g.devices[d]) {
      RegisteredNow(cfg, steps, d);
    }
  }

  lemma RegisteredNow(cfg: Config, steps: seq<Step>, d: (Key, Key))
    requires d in Run(cfg, INITIAL, steps).g.devices
    ensures WasRegistered(cfg, steps, d.0, d.1, Run(cfg, INITIAL, steps).g.devices[d])
  {
    hide Run;
  }

  /** A cache takes the key that was just confirmed, and nothing else. */
  lemma CachesLearn(g: Registries, p: Packet, db: Answer)
    ensures forall u | u in Updated(g, p, db).users :: u in g.users || VouchesUser(Some(p), db, u.0, u.1)
    ensures forall key | key in Updated(g, p, db).profiles :: key in g.profiles || VouchesProfile(Some(p), db, key)
  {
    hide Param, GroupsOf, AcceptsDevice, Without, Split, ClosesManager;
  }

  lemma CachesForget(cfg: Config, s: State, step: Step)
    requires step.Deliver? ==> !Enabled(s, step)
    ensures var t := Apply(cfg, s, step); t.g.users <= s.g.users && t.g.profiles == s.g.profiles
  {
    hide Enabled, TokenInside, TokenAt;
  }

  lemma DeliveredIsNow(cfg: Config, steps: seq<Step>)
    requires steps != [] && Last(cfg, steps).Some?
    requires var s := Run(cfg, INITIAL, steps[..|steps| - 1]);
             Recorded(cfg, steps[..|steps| - 1], s.g) && AllBacked(cfg, steps[..|steps| - 1], s.flight)
    ensures var step := steps[|steps| - 1];
            && step.Deliver? && Bare(Last(cfg, steps).value)
            && Now(cfg, steps, Run(cfg, INITIAL, steps[..|steps| - 1]).g, Last(cfg, steps).value, step.db)
  {
    var before, step := steps[..|steps| - 1], steps[|steps| - 1];
    var s, p := Run(cfg, INITIAL, before), Last(cfg, steps).value;
    RunLast(cfg, steps);
    OneLater(cfg, steps);
    ShapedInRuns(cfg, steps);
    hide Run, Last, Backed, Typed, Bare, Registered, SendsRequest, VouchesUser, VouchesProfile, Grants, Apply, Updated;
    assert p in s.flight;
    BackedPersists(cfg, before, steps, p);
    RecordedPersists(cfg, before, steps, s.g);
  }

  lemma RecordedPersists(cfg: Config, steps: seq<Step>, more: seq<Step>, g: Registries)
    requires Later(cfg, steps, more) && Recorded(cfg, steps, g)
    ensures Recorded(cfg, more, g)
  {
    hide Sent, Vouched, ProfileVouched, Granted, WasRegistered;
  }

  lemma {:induction false} AllBackedPersists(cfg: Config, steps: seq<Step>, more: seq<Step>, packets: seq<Packet>)
    requires Later(cfg, steps, more) && AllBacked(cfg, steps, packets)
    ensures AllBacked(cfg, more, packets)
  {
    hide Later, Backed;
    forall q | q in packets ensures Backed(cfg, more, q) {
      BackedPersists(cfg, steps, more, q);
    }
  }

  lemma SentIsBacked(cfg: Config, steps: seq<Step>)
    requires steps != [] && steps[|steps| - 1].ClientSends?
    ensures var step := steps[|steps| - 1];
            && Backed(cfg, steps, AtPlatform(step.id, step.message))
            && forall k :: Backed(cfg, steps, AtManager(k, step.id, step.message))
  {
    var step := steps[|steps| - 1];
    hide ParseRequest;
    if IsRequest(step.message) && ParseRequest(step.message).Parsed? {
      var q := ParseRequest(step.message).value;
      assert Sent(steps, step.id, q) && Follows(q, q);
    }
  }

  lemma FlightOfStep(cfg: Config, s: State, step: Step)
    ensures var t := Apply(cfg, s, step);
            forall q | q in t.flight ::
              || q in s.flight
              || (step.Deliver? && Enabled(s, step) && q in Outputs(cfg, s.g, s.flight[step.at], step.db, step.via))
              || (step.ClientSends? && (q == AtPlatform(step.id, step.message) ||
                                        exists k :: q == AtManager(k, step.id, step.message)))
  {
    hide Outputs, Updated, Written, TokensOf, AnswersOf, TokenOf, TokenInside, TokenAt, Entered, Opened, LinkLive;
  }

  /** Everything in flight is backed by what happened. */
  lemma {:induction false} RunIsBacked(cfg: Config, steps: seq<Step>)
    ensures Recorded(cfg, steps, Run(cfg, INITIAL, steps).g) && AllBacked(cfg, steps, Run(cfg, INITIAL, steps).flight)
    decreases |steps|
  {
    if steps != [] {
      var before, step := steps[..|steps| - 1], steps[|steps| - 1];
      var s := Run(cfg, INITIAL, before);
      RunIsBacked(cfg, before);
      RecordedKept(cfg, steps);
      RunLast(cfg, steps);
      OneLater(cfg, steps);
      FlightOfStep(cfg, s, step);
      hide Run, Backed, Recorded, Later, Updated, Outputs, Now, Bare, Apply, Last, Enabled;
      AllBackedPersists(cfg, before, steps, s.flight);
      if Last(cfg, steps).Some? {
        DeliveredIsNow(cfg, steps);
        HandledIsBacked(cfg, steps, s.g, Last(cfg, steps).value, step.db, step.via);
      } else if step.ClientSends? {
        SentIsBacked(cfg, steps);
      }
    }
  }

  // ---------------------------------------------------------------- what follows

  /** Whatever a device is told to do, the client it will answer asked for by that name, with a key that may
      command this device: the profile key of its manager, or one that its database confirmed and gave a
      group of the device. */
  lemma CommandsAreAsked(cfg: Config, steps: seq<Step>, link: Id, name: string, task: Task)
    requires Control(link, name, task) in Run(cfg, INITIAL, steps).flight
    ensures exists action ::
              ActionOf(action, name) && Commanded(cfg, steps, link, task.transportId, task.request.id, action)
  {
    RunIsBacked(cfg, steps);
    hide Run, Recorded, Commanded, ActionOf;
    assert Backed(cfg, steps, Control(link, name, task));
  }

  lemma {:induction false} RegisteredIsDevice(cfg: Config, steps: seq<Step>, k: Key, d: Key, id: Id)
    requires StrictRun(cfg, INITIAL, steps) && WasRegistered(cfg, steps, k, d, id)
    ensures RoleOf(Run(cfg, INITIAL, steps).g, id) == Some(DeviceLink(k, d))
    decreases |steps|
  {
    InitialInv(cfg, true);
    RunKeepsInv(cfg, true, INITIAL, steps);
    hide StrictStep, AllShaped, CleanFrames, Conserved, Apply;
    if Registered(Run(cfg, INITIAL, steps).g.devices, (k, d)) != Some(id) {
      RegisteredIsDevice(cfg, steps[..|steps| - 1], k, d, id);
      RolesStay(cfg, Run(cfg, INITIAL, steps[..|steps| - 1]), steps[|steps| - 1]);
      hide RegistriesOk;
    }
  }

  lemma RolesStay(cfg: Config, s: State, step: Step)
    ensures Grows(s.g, Apply(cfg, s, step).g)
  {
    hide Updated, Outputs, Written, TokensOf, AnswersOf, TokenOf, TokenInside, TokenAt, Entered, LinkLive;
    if step.Deliver? && step.at < |s.flight| {
      UpdatesKeepRoles(s.g, s.flight[step.at], step.db);
    }
  }

  lemma UpdatesKeepRoles(g: Registries, p: Packet, db: Answer)
    ensures Updated(g, p, db).roles == g.roles
  {
    hide Param, GroupsOf, AcceptsDevice, Without, Split, ClosesManager;
  }

  /** If clients send well-typed requests, the command is exactly the action asked for, and goes to the device
      asked for. */
  lemma CommandsAreExact(cfg: Config, steps: seq<Step>, link: Id, name: string, task: Task)
    requires Control(link, name, task) in Run(cfg, INITIAL, steps).flight && StrictRun(cfg, INITIAL, steps)
    ensures exists q, k, d ::
              && Commands(cfg, steps, q, k, d, link, task.transportId, task.request.id, "control." + name)
              && RoleOf(Run(cfg, INITIAL, steps).g, link) == Some(DeviceLink(k, d))
  {
    RunIsBacked(cfg, steps);
    InitialInv(cfg, true);
    RunKeepsInv(cfg, true, INITIAL, steps);
    var s := Run(cfg, INITIAL, steps);
    assert Backed(cfg, steps, Control(link, name, task));
    var i :| 0 <= i < |s.flight| && s.flight[i] == Control(link, name, task);
    assert Shape(cfg, s.g, true, s.flight[i]);
    hide Run, StrictRun, Recorded, Commands, WasRegistered, RegistriesOk, CleanFrames, Conserved, Sent, Vouched;
    hide Granted;
    var action := task.request.method_;
    var q, k, d :| Commands(cfg, steps, q, k, d, link, task.transportId, task.request.id, action);
    CommandIsRegistered(cfg, steps, q, k, d, link, task.transportId, task.request.id, action);
    RegisteredIsDevice(cfg, steps, k, d, link);
  }

  lemma CommandIsRegistered(cfg: Config, steps: seq<Step>, q: Request, k: Key, d: Key, link: Id, c: Id, id: Value,
                            action: string)
    requires Commands(cfg, steps, q, k, d, link, c, id, action)
    ensures WasRegistered(cfg, steps, k, d, link)
  {
  }

  /** Behind `users.auth` there is only who has the profile key, or a password that is the one in the
      database; and only the former counts as an administrator. */
  lemma ServiceNeedsPassword(cfg: Config, steps: seq<Step>, p: Packet)
    requires p in Run(cfg, INITIAL, steps).flight
    requires p.Service? || (p.Call? && "user-key" in p.task.request.metadata)
    ensures match TextAt(p.task.request.metadata, "user-key")
            case None => false
            case Some(key) =>
              && (key == cfg(p.manager) || Vouched(cfg, steps, p.manager, key))
              && (Stored(p.task, "user.admin") == "1" <==> key == cfg(p.manager))
  {
    RunIsBacked(cfg, steps);
    hide Run, Recorded, Vouched, Asked, AskedLoosely, Permitted, Split;
    assert Backed(cfg, steps, p);
  }

  /** Behind `profile.auth` there is only who has a password that is the one in the database. */
  lemma PlatformNeedsPassword(cfg: Config, steps: seq<Step>, p: Packet)
    requires p in Run(cfg, INITIAL, steps).flight
    requires p.PlatformService? || (p.PlatformCall? && "profile-key" in p.task.request.metadata)
    ensures match TextAt(p.task.request.metadata, "profile-key")
            case None => false
            case Some(key) => ProfileVouched(cfg, steps, key)
  {
    RunIsBacked(cfg, steps);
    hide Run, Recorded, ProfileVouched, Asked, Split;
    assert Backed(cfg, steps, p);
  }

  /** What a client asks of a manager gets to the manager that it named. */
  lemma RequestsReachTheirManager(cfg: Config, steps: seq<Step>, k: Key, c: Id, m: Fields)
    requires AtManager(k, c, m) in Run(cfg, INITIAL, steps).flight && StrictRun(cfg, INITIAL, steps) && IsRequest(m)
    ensures ParseRequest(m).Parsed? && Asked(steps, c, ParseRequest(m).value)
    ensures match RoleOf(Run(cfg, INITIAL, steps).g, c)
            case Some(Client) => TextAt(ParseRequest(m).value.metadata, "manager-key") == Some(k)
            case Some(LocalClient(j)) => j == k
            case _ => false
  {
    RunIsBacked(cfg, steps);
    InitialInv(cfg, true);
    RunKeepsInv(cfg, true, INITIAL, steps);
    var s := Run(cfg, INITIAL, steps);
    assert Backed(cfg, steps, AtManager(k, c, m));
    var i :| 0 <= i < |s.flight| && s.flight[i] == AtManager(k, c, m);
    assert Shape(cfg, s.g, true, s.flight[i]);
    hide Run, StrictRun, Recorded, RegistriesOk, CleanFrames, Conserved, Asked, ParseRequest, UserRequest;
    ReadFrame(m);
  }

  /** Whom a handler of a manager works for: guests for two methods, users for theirs, and the device's own
      handler for users with a group of the device. */
  lemma CallsArePermitted(cfg: Config, steps: seq<Step>, k: Key, service: string, name: string, task: Task)
    requires Call(k, service, name, task) in Run(cfg, INITIAL, steps).flight
    ensures if "user-key" in task.request.metadata then Permitted(cfg, steps, k, service, name, task)
            else GuestCall(service, name, task.request.method_)
  {
    RunIsBacked(cfg, steps);
    hide Run, Recorded, Asked, AskedLoosely, Permitted, Known, GuestCall;
    assert Backed(cfg, steps, Call(k, service, name, task));
  }

  /** A task is the request of the session that it will be answered on: same id, method, parameters and keys,
      but for the parameters of the last query of `subscriptions.devices`. */
  lemma TasksAreSent(cfg: Config, steps: seq<Step>, p: Packet)
    requires p in Run(cfg, INITIAL, steps).flight
    requires p.UsersAuth? || p.Service? || p.Call? || (p.ManagersRequest? && "manager-key" in p.task.request.metadata)
          || p.ProfileAuth? || p.PlatformService?
    ensures if p.Call? && p.service == "connections" && p.method_ == "groups" then
              AskedLoosely(steps, p.task.transportId, p.task.request)
            else Asked(steps, p.task.transportId, p.task.request)
  {
    RunIsBacked(cfg, steps);
    hide Run, Recorded, Asked, AskedLoosely, Permitted, Known, Routed, KnownProfile;
    assert Backed(cfg, steps, p);
  }
}
