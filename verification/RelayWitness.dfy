/** Runs that show what can go wrong: how far a request for a device gets on its own. */
module RelayWitness {
  import opened JsonValue
  import opened JsonRpc
  import opened Options
  import opened Relay
  import opened RelayRun
  import opened RelayShape
  import opened RelayMessages
  import opened RelayDismissal

  predicate PoliteStep(cfg: Config, s: State, step: Step) {
    && StrictStep(cfg, s, step) && DeletedIn(s.g, step).None?
    && (step.Open? || step.ClientSends? || step.Deliver?)
  }

  /** Clients come and send well-typed requests; nobody closes, removes, deletes, registers or deregisters. */
  predicate Polite(cfg: Config, s: State, steps: seq<Step>)
    decreases |steps|
  {
    steps != [] ==>
      && Polite(cfg, s, steps[..|steps| - 1])
      && PoliteStep(cfg, Run(cfg, s, steps[..|steps| - 1]), steps[|steps| - 1])
  }

  /** `p` may become the only packet in flight. */
  ghost predicate Reaches(cfg: Config, s: State, g: Registries, p: Packet) {
    exists steps :: Polite(cfg, s, steps) && Run(cfg, s, steps).g == g && Run(cfg, s, steps).flight == [p]
  }

  lemma PoliteMore(cfg: Config, s: State, steps: seq<Step>, step: Step)
    requires Polite(cfg, s, steps) && PoliteStep(cfg, Run(cfg, s, steps), step)
    ensures Polite(cfg, s, steps + [step])
  {
    hide PoliteStep, Run;
    assert (steps + [step])[..|steps + [step]| - 1] == steps;
  }

  lemma DeliveryIsPolite(cfg: Config, s: State, db: Answer, via: Id)
    ensures PoliteStep(cfg, s, Deliver(0, db, via))
  {
  }

  lemma ReachesNext(cfg: Config, s: State, g: Registries, p: Packet, q: Packet, db: Answer, via: Id)
    requires Reaches(cfg, s, g, p) && Outputs(cfg, g, p, db, via) == [q]
    requires p.PlatformPipe? ==> SessionOf(g, via) == Some(ManagerLink(p.manager))
    ensures Reaches(cfg, s, Updated(g, p, db), q)
  {
    hide Run, Polite, Outputs, Updated, Written, SessionOf, Entered, TokenOf, TokensOf;
    var steps :| Polite(cfg, s, steps) && Run(cfg, s, steps).g == g && Run(cfg, s, steps).flight == [p];
    DeliverOnly(cfg, s, steps, p, db, via);
    DeliveryIsPolite(cfg, Run(cfg, s, steps), db, via);
    PoliteMore(cfg, s, steps, Deliver(0, db, via));
  }

  /** A client comes. */
  lemma ClientOpens(cfg: Config, s: State, c: Id, session: Session)
    requires c !in s.g.roles
    ensures Polite(cfg, s, [Open(c, session)])
    ensures Run(cfg, s, [Open(c, session)]) == s.(g := Opened(s.g, c, session))
  {
    hide Opened, StrictFrame;
    RunOfNone(cfg, s);
    OneMore(cfg, s, [], Open(c, session));
    assert [] + [Open(c, session)] == [Open(c, session)];
    hide Run;
    PoliteMore(cfg, s, [], Open(c, session));
  }

  lemma ClientAsks(cfg: Config, s: State, c: Id, session: Session, m: Fields)
    requires s.flight == [] && c !in s.g.roles && (session.Client? || session.LocalClient?)
    requires StrictFrame(cfg, Opened(s.g, c, session), c, m) && DeletedOf(AtPlatform(c, m)).None?
    ensures Reaches(cfg, s, Opened(s.g, c, session),
                    if session.Client? then AtPlatform(c, m) else AtManager(session.manager, c, m))
  {
    assert SessionOf(Opened(s.g, c, session), c) == Some(session);
    hide Opened, StrictFrame, SessionOf, TokenAt, TokenInside, Run, Polite, DeletedOf;
    ClientOpens(cfg, s, c, session);
    OneMore(cfg, s, [Open(c, session)], ClientSends(c, m));
    PoliteMore(cfg, s, [Open(c, session)], ClientSends(c, m));
    assert Polite(cfg, s, [Open(c, session)] + [ClientSends(c, m)]);
  }

  lemma {:induction false} LongerThanAll(ids: set<Id>) returns (n: nat)
    ensures forall id | id in ids :: |id| < n
    decreases |ids|
  {
    if ids == {} {
      return 0;
    }
    var id :| id in ids;
    var rest := LongerThanAll(ids - {id});
    n := if rest > |id| then rest else |id| + 1;
  }

  lemma FreshId(g: Registries) returns (c: Id)
    ensures c !in g.roles
  {
    var n := LongerThanAll(g.roles.Keys);
    c := seq(n, _ => 'x');
  }

  // ---------------------------------------------------------------- a request for a device

  function ControlRequest(device: Key, action: string): Request {
    Request(Null, "devices.control", Obj(map["action" := Str(action)]),
            map["user-key" := Str("u.p"), "device-key" := Str(device)])
  }

  /** What a manager makes of it for the device. */
  function ActionRequest(c: Id, action: string): Fields {
    SerializeRequest(Request(Null, action, Null, map["transport" := Str(c)]))
  }

  /** The request of `c` for the device, in the manager. */
  predicate WantsDevice(task: Task, c: Id, device: Key, action: string) {
    && task.transportId == c && task.request.id == Null && task.request.method_ == "devices.control"
    && Param(task.request, "action") == Some(action)
    && "device-key" in task.request.metadata && task.request.metadata["device-key"] == Str(device)
    && Stored(task, "service.name") == "devices" && Stored(task, "service.method") == "control"
  }

  lemma UserKeyIsSplit()
    ensures Split("u.p") == ["u", "p"]
  {
    hide Split;
    SplitAtDot("u", "p");
    assert "u.p" == "u" + "." + "p";
  }

  lemma IntoManager(cfg: Config, s: State, g: Registries, k: Key, c: Id, device: Key, action: string)
    returns (task: Task)
    requires Reaches(cfg, s, g, AtManager(k, c, SerializeRequest(ControlRequest(device, action))))
    ensures Reaches(cfg, s, g, UsersAuth(k, task)) && WantsDevice(task, c, device, action)
    ensures TextAt(task.request.metadata, "user-key") == Some("u.p")
  {
    hide Reaches, ParseRequest, SerializeRequest, Split;
    var r := ControlRequest(device, action);
    RequestFrame(r);
    DeviceMethods();
    task := Task(c, r, map["service.name" := "devices", "service.method" := "control", "profile.key" := cfg(k)]);
    ReachesNext(cfg, s, g, AtManager(k, c, SerializeRequest(r)), UsersAuth(k, task), Failed(""), "");
  }

  lemma ThroughUsers(cfg: Config, s: State, g: Registries, k: Key, c: Id, device: Key, action: string, task: Task)
    returns (h: Registries, known: Task)
    requires Reaches(cfg, s, g, UsersAuth(k, task)) && WantsDevice(task, c, device, action)
    requires TextAt(task.request.metadata, "user-key") == Some("u.p")
    ensures h == g.(users := h.users)
    ensures Reaches(cfg, s, h, Call(k, "devices", "control", known)) && WantsDevice(known, c, device, action)
  {
    hide Reaches, Split, Param;
    UserKeyIsSplit();
    var admin := if Stored(task, "profile.key") == "u.p" then "1" else "0";
    known := task.(storage := Emplaced(task.storage["user.admin" := admin], "user.login", "u"));
    h := UserCached(g, k, task, Found([], 1, Some("p")));
    ReachesNext(cfg, s, g, UsersAuth(k, task), Service(k, known), Found([], 1, Some("p")), "");
    ReachesNext(cfg, s, h, Service(k, known), Call(k, "devices", "control", known), Failed(""), "");
  }

  lemma ThroughConnections(cfg: Config, s: State, g: Registries, k: Key, c: Id, device: Key, action: string, task: Task)
    returns (grouped: Task)
    requires Reaches(cfg, s, g, Call(k, "devices", "control", task)) && WantsDevice(task, c, device, action)
    requires (k, device) in g.devices && device != ""
    ensures Reaches(cfg, s, g, Call(k, "subscriptions", "groups", grouped)) && WantsDevice(grouped, c, device, action)
    ensures GroupsOf(grouped) == Some([Str("g")])
  {
    hide Reaches, AcceptsDevice;
    var metadata := task.request.metadata["device-groups" := Arr([Str("g")])];
    grouped := task.(request := task.request.(metadata := metadata));
    ReachesNext(cfg, s, g, Call(k, "devices", "control", task), Call(k, "connections", "devices", task), Failed(""),
                "");
    ReachesNext(cfg, s, g, Call(k, "connections", "devices", task), Call(k, "subscriptions", "groups", grouped),
                Found([Str("g")], 1, None), "");
  }

  lemma ToTheDevice(cfg: Config, s: State, g: Registries, k: Key, c: Id, device: Key, action: string, task: Task)
    requires Reaches(cfg, s, g, Call(k, "subscriptions", "groups", task)) && WantsDevice(task, c, device, action)
    requires (k, device) in g.devices && GroupsOf(task) == Some([Str("g")])
    ensures Reaches(cfg, s, g, ManagerWrite(k, g.devices[(k, device)], ActionRequest(c, action)))
  {
    hide Reaches, SerializeRequest, AcceptsDevice;
    var metadata := task.request.metadata - {"device-groups"};
    var checked := task.(request := task.request.(metadata := metadata));
    ReachesNext(cfg, s, g, Call(k, "subscriptions", "groups", task), Call(k, "devices", "request", checked),
                Found([], 1, Some("p")), "");
    ReachesNext(cfg, s, g, Call(k, "devices", "request", checked),
                ManagerWrite(k, g.devices[(k, device)], ActionRequest(c, action)), Failed(""), "");
  }

  lemma WellTyped(cfg: Config, g: Registries, k: Key, c: Id, device: Key, action: string)
    requires action in ACTIONS && SessionOf(g, c) == Some(LocalClient(k))
    ensures StrictFrame(cfg, g, c, SerializeRequest(ControlRequest(device, action)))
    ensures DeletedOf(AtPlatform(c, SerializeRequest(ControlRequest(device, action)))).None?
  {
    hide ParseRequest, SerializeRequest, Split;
    RequestFrame(ControlRequest(device, action));
    UserKeyIsSplit();
  }

  /** A client of the manager can ask a registered device for any of its actions, and the manager then writes a
      request for that action to the session that the device was registered with. */
  lemma RequestIsWritten(cfg: Config, s: State, k: Key, device: Key, c: Id, action: string) returns (h: Registries)
    requires s.flight == [] && c !in s.g.roles && (k, device) in s.g.devices && device != "" && action in ACTIONS
    ensures h == Opened(s.g, c, LocalClient(k)).(users := h.users)
    ensures Reaches(cfg, s, h, ManagerWrite(k, s.g.devices[(k, device)], ActionRequest(c, action)))
  {
    hide Reaches, SerializeRequest, WantsDevice;
    var g := Opened(s.g, c, LocalClient(k));
    WellTyped(cfg, g, k, c, device, action);
    ClientAsks(cfg, s, c, LocalClient(k), SerializeRequest(ControlRequest(device, action)));
    var task := IntoManager(cfg, s, g, k, c, device, action);
    var known;
    h, known := ThroughUsers(cfg, s, g, k, c, device, action, task);
    var grouped := ThroughConnections(cfg, s, h, k, c, device, action, known);
    ToTheDevice(cfg, s, h, k, c, device, action, grouped);
  }
}
