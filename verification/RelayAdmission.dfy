/** Who is let in, and who is refused what: each door of the relay opens if and only if its condition holds,
    and otherwise the client gets one error. */
module RelayAdmission {
  import opened JsonValue
  import opened JsonRpc
  import opened Options
  import opened Relay
  import opened RelayRun
  import opened RelayShape
  import opened RelayMessages
  import opened RelayHistory
  import opened RelayRegistered
  import opened RelayAccess
  import opened RelayAuthority

  /** What delivering a packet puts in flight. */
  predicate Puts(cfg: Config, steps: seq<Step>, at: nat, db: Answer, via: Id, outs: seq<Packet>)
    requires at < |Run(cfg, INITIAL, steps).flight|
  {
    var flight := Run(cfg, INITIAL, steps).flight;
    Run(cfg, INITIAL, steps + [Deliver(at, db, via)]).flight == flight[..at] + flight[at + 1..] + outs
  }

  lemma PutsOutputs(cfg: Config, steps: seq<Step>, at: nat, db: Answer, via: Id)
    requires var s := Run(cfg, INITIAL, steps); at < |s.flight| && !s.flight[at].PlatformPipe?
    ensures var s := Run(cfg, INITIAL, steps); Puts(cfg, steps, at, db, via, Outputs(cfg, s.g, s.flight[at], db, via))
  {
    OneMore(cfg, INITIAL, steps, Deliver(at, db, via));
    hide Run, Outputs, Updated, Written, TokensOf, AnswersOf, TokenOf, LinkLive, Entered;
  }

  /** The text of an error goes out with the code of an unknown error, under the id of the request. */
  function Refusal(id: Value, text: string): Fields {
    map["jsonrpc" := Str("2.0"), "result" := Null, "id" := id,
        "error" := Obj(map["code" := Int(-32001), "message" := Str(text), "data" := Null])]
  }

  lemma RefusalSays(id: Value, text: string)
    ensures ErrorMessage(id, text) == Refusal(id, text)
  {
    assert ErrorFields(RpcError(UNKNOWN_ERROR_CODE, text, Null)) ==
           map["code" := Int(-32001), "message" := Str(text), "data" := Null];
  }

  // ---------------------------------------------------------------- users of a manager

  /** The key was confirmed, and not forgotten since. */
  predicate Remembered(cfg: Config, steps: seq<Step>, k: Key, key: string)
    decreases |steps|
  {
    && steps != []
    && var before, step := steps[..|steps| - 1], steps[|steps| - 1];
       || (step.Deliver? && VouchesUser(Last(cfg, steps), step.db, k, key))
       || (step != Forget(k, key) && Remembered(cfg, before, k, key))
  }

  lemma OthersKeepUsers(g: Registries, p: Packet, db: Answer)
    requires !p.UsersAuth?
    ensures Updated(g, p, db).users == g.users
  {
    hide Param, GroupsOf, AcceptsDevice, Without, Split, ClosesManager;
  }

  lemma OthersKeepProfiles(g: Registries, p: Packet, db: Answer)
    requires !p.ProfileAuth?
    ensures Updated(g, p, db).profiles == g.profiles
  {
    hide Param, GroupsOf, AcceptsDevice, Without, Split, ClosesManager;
  }

  lemma CacheTakes(cfg: Config, h: seq<Step>, g: Registries, p: Packet, db: Answer, k: Key, key: string)
    requires Backed(cfg, h, p) && key != cfg(k)
    ensures (k, key) in Updated(g, p, db).users <==> (k, key) in g.users || VouchesUser(Some(p), db, k, key)
  {
    hide Split, Asked, Known, Permitted, Routed, CommandFrame;
    if !p.UsersAuth? {
      OthersKeepUsers(g, p, db);
      hide Updated, Backed;
    }
  }

  lemma StepsForget(cfg: Config, s: State, step: Step, k: Key, key: string)
    requires !Enabled(s, step)
    ensures (k, key) in Apply(cfg, s, step).g.users <==> (k, key) in s.g.users && step != Forget(k, key)
  {
    hide Enabled, TokenInside, TokenAt;
  }

  /** The cache of a manager holds exactly the keys that its database confirmed and that it did not forget. */
  lemma {:induction false} CacheIsRemembered(cfg: Config, steps: seq<Step>, k: Key, key: string)
    requires key != cfg(k)
    ensures (k, key) in Run(cfg, INITIAL, steps).g.users <==> Remembered(cfg, steps, k, key)
    decreases |steps|
  {
    if steps != [] {
      var before, step := steps[..|steps| - 1], steps[|steps| - 1];
      CacheIsRemembered(cfg, before, k, key);
      RunLast(cfg, steps);
      var s, last := Run(cfg, INITIAL, before), Last(cfg, steps);
      if last.Some? {
        RunIsBacked(cfg, before);
        assert last.value in s.flight;
        hide Run, Last, Apply, Updated, VouchesUser, Backed, Recorded;
        CacheTakes(cfg, before, s.g, last.value, step.db, k, key);
      } else {
        hide Run, Last, Apply, Updated, VouchesUser, Enabled;
        StepsForget(cfg, s, step, k, key);
      }
    }
  }

  /** Whether `users.auth` lets somebody in. */
  predicate LetsIn(cfg: Config, steps: seq<Step>, k: Key, key: string, db: Answer) {
    key == cfg(k) || Remembered(cfg, steps, k, key) || Matches(key, db)
  }

  predicate PassesTo(service: Packet, k: Key, task: Task) {
    && service.Service? && service.manager == k
    && service.task.transportId == task.transportId && service.task.request == task.request
  }

  lemma AuthenticatesIff(g: Registries, k: Key, task: Task, key: string, db: Answer)
    requires TextAt(task.request.metadata, "user-key") == Some(key)
    ensures var outs := Authenticate(g, k, task, db);
            if key == Stored(task, "profile.key") || (k, key) in g.users || Matches(key, db) then
              |outs| == 1 && PassesTo(outs[0], k, task)
            else
              outs == if db.Found? && |Split(key)| == 1 then [] else
                [ManagerWrite(k, task.transportId,
                              Refusal(task.request.id, if db.Failed? then db.what else "authentication bad"))]
  {
    RefusalSays(task.request.id, if db.Failed? then db.what else "authentication bad");
    hide Split, ErrorMessage, Refusal;
  }

  /** A key is let in if and only if it is the profile key of the manager, is remembered, or has the password
      that the database has for its login. Any other key gets one error. */
  lemma UserLetInIff(cfg: Config, steps: seq<Step>, at: nat, k: Key, task: Task, key: string, db: Answer, via: Id)
    requires var s := Run(cfg, INITIAL, steps); at < |s.flight| && s.flight[at] == UsersAuth(k, task)
    requires TextAt(task.request.metadata, "user-key") == Some(key)
    ensures exists outs ::
              && Puts(cfg, steps, at, db, via, outs)
              && if LetsIn(cfg, steps, k, key, db) then |outs| == 1 && PassesTo(outs[0], k, task)
                 else
                   outs == if db.Found? && |Split(key)| == 1 then [] else
                     [ManagerWrite(k, task.transportId,
                                   Refusal(task.request.id, if db.Failed? then db.what else "authentication bad"))]
  {
    var s := Run(cfg, INITIAL, steps);
    RunIsBacked(cfg, steps);
    PutsOutputs(cfg, steps, at, db, via);
    AuthenticatesIff(s.g, k, task, key, db);
    if key != cfg(k) {
      CacheIsRemembered(cfg, steps, k, key);
    }
    hide Run, Puts, Remembered, Matches, Authenticate, Recorded, Split, Refusal, Asked, PassesTo, Routed;
    assert Backed(cfg, steps, s.flight[at]);
    assert Puts(cfg, steps, at, db, via, Authenticate(s.g, k, task, db));
  }

  // ---------------------------------------------------------------- profiles of the platform

  lemma ProfileCacheTakes(g: Registries, p: Packet, db: Answer, key: string)
    ensures key in Updated(g, p, db).profiles <==> key in g.profiles || VouchesProfile(Some(p), db, key)
  {
    hide Split;
    if !p.ProfileAuth? {
      OthersKeepProfiles(g, p, db);
      hide Updated;
    }
  }

  lemma StepsKeepProfiles(cfg: Config, s: State, step: Step)
    requires !Enabled(s, step)
    ensures Apply(cfg, s, step).g.profiles == s.g.profiles
  {
    hide Enabled, TokenInside, TokenAt;
  }

  /** The cache of the platform holds exactly the keys that its database confirmed. */
  lemma {:induction false} ProfileCacheIsVouched(cfg: Config, steps: seq<Step>, key: string)
    ensures key in Run(cfg, INITIAL, steps).g.profiles <==> ProfileVouched(cfg, steps, key)
    decreases |steps|
  {
    if steps != [] {
      var before, step := steps[..|steps| - 1], steps[|steps| - 1];
      ProfileCacheIsVouched(cfg, before, key);
      RunLast(cfg, steps);
      var s, last := Run(cfg, INITIAL, before), Last(cfg, steps);
      if last.Some? {
        hide Run, Last, Apply, Updated, VouchesProfile, Enabled;
        ProfileCacheTakes(s.g, last.value, step.db, key);
      } else {
        hide Run, Last, Apply, Updated, Enabled, TextAt, Matches;
        StepsKeepProfiles(cfg, s, step);
      }
    }
  }

  lemma ProfileAuthenticatesIff(g: Registries, task: Task, key: string, db: Answer)
    requires TextAt(task.request.metadata, "profile-key") == Some(key)
    ensures var outs := AuthenticateProfile(g, task, db);
            if key in g.profiles || Matches(key, db) then
              |outs| == 1 && PassesOn(outs[0], task)
            else
              outs == if db.Found? && |Split(key)| == 1 then [] else
                [PlatformWrite(task.transportId,
                               Refusal(task.request.id, if db.Failed? then db.what else "authentication bad"))]
  {
    RefusalSays(task.request.id, if db.Failed? then db.what else "authentication bad");
    hide Split, ErrorMessage, Refusal;
  }

  predicate PassesOn(service: Packet, task: Task) {
    && service.PlatformService?
    && service.task.transportId == task.transportId && service.task.request == task.request
  }

  /** A profile key is let in if and only if it was confirmed before, or has the password that the database
      has for its login. */
  lemma ProfileLetInIff(cfg: Config, steps: seq<Step>, at: nat, task: Task, key: string, db: Answer, via: Id)
    requires var s := Run(cfg, INITIAL, steps); at < |s.flight| && s.flight[at] == ProfileAuth(task)
    requires TextAt(task.request.metadata, "profile-key") == Some(key)
    ensures exists outs ::
              && Puts(cfg, steps, at, db, via, outs)
              && if ProfileVouched(cfg, steps, key) || Matches(key, db) then |outs| == 1 && PassesOn(outs[0], task)
                 else
                   outs == if db.Found? && |Split(key)| == 1 then [] else
                     [PlatformWrite(task.transportId,
                                    Refusal(task.request.id, if db.Failed? then db.what else "authentication bad"))]
  {
    var s := Run(cfg, INITIAL, steps);
    PutsOutputs(cfg, steps, at, db, via);
    ProfileAuthenticatesIff(s.g, task, key, db);
    ProfileCacheIsVouched(cfg, steps, key);
    hide Run, Puts, ProfileVouched, Matches, AuthenticateProfile, Split, Refusal, PassesOn;
    assert Puts(cfg, steps, at, db, via, AuthenticateProfile(s.g, task, db));
  }

  // ---------------------------------------------------------------- methods and devices

  /** What a handler sends on. */
  predicate CallsNext(q: Packet, k: Key, service: string, name: string, task: Task) {
    && q.Call? && q.manager == k && q.service == service && q.method_ == name
    && q.task.transportId == task.transportId && Follows(task.request, q.task.request)
  }

  function Denied(k: Key, task: Task, text: string): seq<Packet> {
    [ManagerWrite(k, task.transportId, Refusal(task.request.id, text))]
  }

  /** What the router of a manager does with a task of a known user. */
  predicate RoutesTo(k: Key, task: Task, admin: bool, outs: seq<Packet>) {
    var parts := Split(task.request.method_);
    && |parts| > 1
    && if parts[0] !in {"users", "devices", "groups", "subscriptions", "connections"} then
         outs == Denied(k, task, "service not found")
       else if parts[1] !in Handlers(parts[0]) then outs == Denied(k, task, "method not found")
       else if admin || task.request.method_ in
                 {"devices.list", "devices.control", "devices.detail", "devices.subscribe", "devices.unsubscribe",
                  "subscriptions.devices", "connections.subscribe", "connections.unsubscribe"}
       then |outs| == 1 && CallsNext(outs[0], k, parts[0], parts[1], task)
       else outs == Denied(k, task, "permission denied")
  }

  lemma Routes(k: Key, task: Task)
    requires Routed(task)
    ensures RoutesTo(k, task, Stored(task, "user.admin") == "1", RouteToService(k, task))
  {
    RefusalSays(task.request.id, "service not found");
    RefusalSays(task.request.id, "method not found");
    RefusalSays(task.request.id, "permission denied");
    hide Split, Refusal, ErrorMessage, Handlers;
  }

  /** A user without the profile key gets to the handlers of eight methods, and is refused all others; with it
      every handler can be reached. */
  lemma MethodPermittedIff(cfg: Config, steps: seq<Step>, at: nat, k: Key, task: Task, key: string, db: Answer, via: Id)
    requires var s := Run(cfg, INITIAL, steps); at < |s.flight| && s.flight[at] == Service(k, task)
    requires TextAt(task.request.metadata, "user-key") == Some(key)
    ensures exists outs :: Puts(cfg, steps, at, db, via, outs) && RoutesTo(k, task, key == cfg(k), outs)
  {
    var s := Run(cfg, INITIAL, steps);
    RunIsBacked(cfg, steps);
    PutsOutputs(cfg, steps, at, db, via);
    assert Backed(cfg, steps, s.flight[at]);
    Routes(k, task);
    hide Run, Puts, Recorded, Split, RoutesTo, Asked, Vouched, RouteToService;
    assert Puts(cfg, steps, at, db, via, RouteToService(k, task));
  }

  predicate Opens(k: Key, task: Task, access: bool, outs: seq<Packet>) {
    if access then |outs| == 1 && CallsNext(outs[0], k, "devices", "request", task)
    else outs == Denied(k, task, "access denied to device")
  }

  lemma Checks(k: Key, task: Task, groups: seq<Value>, count: nat, rows: seq<Value>, account: Option<string>)
    requires GroupsOf(task) == Some(groups) && groups != [] && forall i | 0 <= i < |groups| :: groups[i].Str?
    ensures Opens(k, task, count > 0 || Stored(task, "user.admin") == "1",
                  CheckAccess(k, task, Found(rows, count, account)))
  {
    RefusalSays(task.request.id, "access denied to device");
    hide Refusal, ErrorMessage, GroupsOf;
  }

  lemma ServesChecks(g: Registries, k: Key, task: Task, db: Answer)
    ensures Serve(g, k, "subscriptions", "groups", task, db) == CheckAccess(k, task, db)
  {
    hide CheckAccess;
  }

  lemma MarkIsKey(cfg: Config, steps: seq<Step>, k: Key, task: Task)
    requires Backed(cfg, steps, Call(k, "subscriptions", "groups", task))
    ensures Stored(task, "user.admin") == "1" <==> TextAt(task.request.metadata, "user-key") == Some(cfg(k))
  {
    hide Split, Asked, Vouched, Permitted, Routed;
  }

  /** A device is asked if and only if the user has a group of it, or the profile key. */
  lemma DeviceAccessIff(cfg: Config, steps: seq<Step>, at: nat, k: Key, task: Task, groups: seq<Value>, count: nat,
                        rows: seq<Value>, account: Option<string>, via: Id)
    requires var s := Run(cfg, INITIAL, steps);
             at < |s.flight| && s.flight[at] == Call(k, "subscriptions", "groups", task)
    requires GroupsOf(task) == Some(groups) && groups != [] && forall i | 0 <= i < |groups| :: groups[i].Str?
    ensures exists outs ::
              && Puts(cfg, steps, at, Found(rows, count, account), via, outs)
              && Opens(k, task, count > 0 || TextAt(task.request.metadata, "user-key") == Some(cfg(k)), outs)
  {
    var s, db := Run(cfg, INITIAL, steps), Found(rows, count, account);
    RunIsBacked(cfg, steps);
    PutsOutputs(cfg, steps, at, db, via);
    Checks(k, task, groups, count, rows, account);
    hide Run, Puts, Recorded, Backed, Opens, Serve, CheckAccess;
    assert Backed(cfg, steps, s.flight[at]);
    MarkIsKey(cfg, steps, k, task);
    ServesChecks(s.g, k, task, db);
    assert Puts(cfg, steps, at, db, via, CheckAccess(k, task, db));
  }

  predicate Welcomes(k: Key, from: Id, r: Request, outs: seq<Packet>) {
    var task := Task(from, r, map[]);
    if r.method_ == "users.login" then |outs| == 1 && CallsNext(outs[0], k, "users", "login", task)
    else if r.method_ == "manager.info" then |outs| == 1 && CallsNext(outs[0], k, "manager", "info", task)
    else outs == Denied(k, task, "access is denied")
  }

  lemma Guests(cfg: Config, k: Key, from: Id, m: Fields, r: Request)
    requires IsRequest(m) && ParseRequest(m).Parsed? && ParseRequest(m).value == r
    requires "user-key" !in r.metadata && |Split(r.method_)| > 1
    ensures Welcomes(k, from, r, ManagerDispatcher(cfg, k, from, m))
  {
    GuestMethods();
    RefusalSays(r.id, "access is denied");
    hide ParseRequest, Split, Refusal, ErrorMessage;
  }

  /** Without a key of a user a request reaches a handler if and only if it logs in or asks for information. */
  lemma GuestIff(cfg: Config, steps: seq<Step>, at: nat, k: Key, from: Id, m: Fields, r: Request, db: Answer, via: Id)
    requires var s := Run(cfg, INITIAL, steps); at < |s.flight| && s.flight[at] == AtManager(k, from, m)
    requires IsRequest(m) && ParseRequest(m).Parsed? && ParseRequest(m).value == r
    requires "user-key" !in r.metadata && |Split(r.method_)| > 1
    ensures exists outs :: Puts(cfg, steps, at, db, via, outs) && Welcomes(k, from, r, outs)
  {
    PutsOutputs(cfg, steps, at, db, via);
    Guests(cfg, k, from, m, r);
    hide Run, Puts, ParseRequest, Split, Welcomes, ManagerDispatcher;
    assert Puts(cfg, steps, at, db, via, ManagerDispatcher(cfg, k, from, m));
  }

  predicate Admits(from: Id, r: Request, outs: seq<Packet>) {
    if r.method_ == "profile.signup" then AdmitsTo(from, r, "profile", "signup", outs)
    else if r.method_ == "profile.login" then AdmitsTo(from, r, "profile", "login", outs)
    else if r.method_ == "manager.info" then AdmitsTo(from, r, "manager", "info", outs)
    else outs == [PlatformWrite(from, Refusal(r.id, "access is denied"))]
  }

  predicate AdmitsTo(from: Id, r: Request, service: string, name: string, outs: seq<Packet>) {
    && |outs| == 1 && outs[0].PlatformCall? && outs[0].service == service && outs[0].method_ == name
    && outs[0].task.transportId == from && outs[0].task.request == r
  }

  lemma PlatformGuests(from: Id, m: Fields, r: Request)
    requires IsRequest(m) && ParseRequest(m).Parsed? && ParseRequest(m).value == r
    requires "manager-key" !in r.metadata && "profile-key" !in r.metadata && |Split(r.method_)| > 1
    ensures Admits(from, r, PlatformDispatcher(from, m))
  {
    PlatformGuestMethods();
    RefusalSays(r.id, "access is denied");
    hide ParseRequest, Split, Refusal, ErrorMessage;
  }

  /** Without a profile key a request to the platform itself reaches a handler if and only if it signs up, logs
      in or asks for information. */
  lemma PlatformGuestIff(cfg: Config, steps: seq<Step>, at: nat, from: Id, m: Fields, r: Request, db: Answer, via: Id)
    requires var s := Run(cfg, INITIAL, steps); at < |s.flight| && s.flight[at] == AtPlatform(from, m)
    requires IsRequest(m) && ParseRequest(m).Parsed? && ParseRequest(m).value == r
    requires "manager-key" !in r.metadata && "profile-key" !in r.metadata && |Split(r.method_)| > 1
    ensures exists outs :: Puts(cfg, steps, at, db, via, outs) && Admits(from, r, outs)
  {
    PutsOutputs(cfg, steps, at, db, via);
    PlatformGuests(from, m, r);
    hide Run, Puts, ParseRequest, Split, Admits, PlatformDispatcher;
    assert Puts(cfg, steps, at, db, via, PlatformDispatcher(from, m));
  }

  // ---------------------------------------------------------------- what registrations are answered

  /** One answer: true if it went well, and otherwise an error. */
  predicate Tells(k: Key, task: Task, well: bool, outs: seq<Packet>) {
    && |outs| == 1 && outs[0].ManagerWrite? && outs[0].manager == k && outs[0].to == task.transportId
    && var m := outs[0].message;
       && "id" in m && m["id"] == task.request.id && "result" in m
       && ("error" !in m <==> well) && (well ==> m["result"] == Bool(true))
  }

  lemma OnTells(g: Registries, k: Key, task: Task, d: Key, db: Answer)
    requires Param(task.request, "device-key") == Some(d) && GroupsOf(task).Some?
    ensures Tells(k, task, MayListen(task, db) && task.transportId !in Subscribers(g, k, d), AnswerOn(g, k, task, db))
  {
    hide GroupsOf, Param;
  }

  lemma OffTells(g: Registries, k: Key, task: Task, d: Key)
    requires Param(task.request, "device-key") == Some(d)
    ensures Tells(k, task, task.transportId in Subscribers(g, k, d), AnswerOff(g, k, task))
  {
    hide Param;
  }

  lemma ConnectTells(k: Key, task: Task, d: Key, db: Answer)
    requires Param(task.request, "key") == Some(d)
    requires ParamItems(task.request, "actions").Some? && ParamItems(task.request, "variables").Some?
    ensures Tells(k, task, DeviceTask("connect", task, db, d).Connects?, ConnectDevice(k, task, db))
  {
    hide ParamItems, Param;
  }

  /** Somebody who subscribes is told true if and only if he may listen and does not yet. */
  lemma SubscribingIsAnswered(cfg: Config, steps: seq<Step>, at: nat, k: Key, task: Task, d: Key, db: Answer, via: Id)
    requires var s := Run(cfg, INITIAL, steps);
             at < |s.flight| && s.flight[at] == Call(k, "subscriptions", "on", task)
    requires Param(task.request, "device-key") == Some(d) && GroupsOf(task).Some?
    ensures exists outs ::
              && Puts(cfg, steps, at, db, via, outs)
              && Tells(k, task, MayListen(task, db) && !Listening(cfg, steps, k, d, task.transportId), outs)
  {
    var s := Run(cfg, INITIAL, steps);
    PutsOutputs(cfg, steps, at, db, via);
    ListenersAreListening(cfg, steps, k, d);
    OnTells(s.g, k, task, d, db);
    hide Run, Puts, Tells, MayListen, Listening, AnswerOn, Subscribers, Param, GroupsOf;
    assert Puts(cfg, steps, at, db, via, AnswerOn(s.g, k, task, db));
  }

  /** Somebody who unsubscribes is told true without an error if and only if he listens. */
  lemma UnsubscribingIsAnswered(cfg: Config, steps: seq<Step>, at: nat, k: Key, task: Task, d: Key, db: Answer, via: Id)
    requires var s := Run(cfg, INITIAL, steps);
             at < |s.flight| && s.flight[at] == Call(k, "subscriptions", "off", task)
    requires Param(task.request, "device-key") == Some(d)
    ensures exists outs ::
              && Puts(cfg, steps, at, db, via, outs)
              && Tells(k, task, Listening(cfg, steps, k, d, task.transportId), outs)
  {
    var s := Run(cfg, INITIAL, steps);
    PutsOutputs(cfg, steps, at, db, via);
    ListenersAreListening(cfg, steps, k, d);
    OffTells(s.g, k, task, d);
    hide Run, Puts, Tells, Listening, AnswerOff, Subscribers, Param;
    assert Puts(cfg, steps, at, db, via, AnswerOff(s.g, k, task));
  }

  /** A device is told true without an error if and only if it is registered, or was already. */
  lemma ConnectingIsAnswered(cfg: Config, steps: seq<Step>, at: nat, k: Key, task: Task, d: Key, db: Answer, via: Id)
    requires var s := Run(cfg, INITIAL, steps);
             at < |s.flight| && s.flight[at] == Call(k, "devices", "connect", task)
    requires Param(task.request, "key") == Some(d)
    requires ParamItems(task.request, "actions").Some? && ParamItems(task.request, "variables").Some?
    ensures exists outs ::
              Puts(cfg, steps, at, db, via, outs) && Tells(k, task, DeviceTask("connect", task, db, d).Connects?, outs)
  {
    PutsOutputs(cfg, steps, at, db, via);
    ConnectTells(k, task, d, db);
    hide Run, Puts, Tells, DeviceTask, ConnectDevice, Param, ParamItems;
    assert Puts(cfg, steps, at, db, via, ConnectDevice(k, task, db));
  }
}
