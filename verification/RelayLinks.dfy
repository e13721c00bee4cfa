/** When a manager keeps its connection to the platform: a frame that the manager cannot place goes there,
    the platform refuses it, and on the refusal the manager closes the connection. */
module RelayLinks {
  import opened JsonValue
  import opened JsonRpc
  import opened Options
  import opened Relay
  import opened RelayRun
  import opened RelayShape
  import opened RelayMessages
  import opened RelayInside
  import opened RelayInvariant
  import opened RelayDismissal
  import opened RelayWitness

  /** Every device that is registered at the manager has a session that its listener still knows. A request
      with an empty device key is refused before it gets there. */
  predicate DevicesStored(g: Registries, k: Key) {
    forall d | d in g.devices && d.0 == k && d.1 != "" :: g.devices[d] in g.stored
  }

  /** Refusals and other answers, and the platform's own request to disconnect. */
  predicate Ends(m: Fields) {
    !IsRequest(m) || m == Farewell(m["id"])
  }

  /** A frame of manager `k` that goes astray, or that deletes it, and what comes of it. */
  predicate Misrouted(g: Registries, k: Key, p: Packet) {
    match p
    case ManagerWrite(j, to, m) => j == k && IsRequest(m) && to !in g.stored
    case PlatformPipe(j, _, m) => j == k && IsRequest(m)
    case AtPlatform(from, m) => (IsRequest(m) && LinkOf(g, k, from)) || DeletedOf(p) == Some(k)
    case ProfileAuth(_) => DeletedOf(p) == Some(k)
    case PlatformService(_) => DeletedOf(p) == Some(k)
    case PlatformCall(_, _, _) => DeletedOf(p) == Some(k)
    case PlatformWrite(to, m) => LinkOf(g, k, to) && Ends(m)
    case AtPlatformClient(j, m) => j == k && Ends(m)
    case _ => false
  }

  predicate NoneMisrouted(g: Registries, k: Key, packets: seq<Packet>) {
    forall i | 0 <= i < |packets| :: !Misrouted(g, k, packets[i])
  }

  /** Nobody deletes the manager, closes a connection of it or removes a session of its devices, and clients
      send well-typed requests. The relay itself may close what it likes. */
  predicate Spares(cfg: Config, s: State, k: Key, step: Step) {
    && StrictStep(cfg, s, step) && DeletedIn(s.g, step) != Some(k)
    && (step.Close? ==> !LinkOf(s.g, k, step.id))
    && (step.Remove? ==> !LinkOf(s.g, k, step.id) && !DeviceOf(s.g, k, step.id))
  }

  predicate SparingRun(cfg: Config, s: State, k: Key, steps: seq<Step>)
    decreases |steps|
  {
    steps != [] ==>
      && SparingRun(cfg, s, k, steps[..|steps| - 1])
      && Spares(cfg, Run(cfg, s, steps[..|steps| - 1]), k, steps[|steps| - 1])
  }

  // ---------------------------------------------------------------- with stored devices nothing goes astray

  lemma InsideIsPlaced(g: Registries, k: Key, j: Key, outs: seq<Packet>)
    requires AllInside(j, outs)
    ensures NoneMisrouted(g, k, outs)
  {
    forall i | 0 <= i < |outs| ensures !Misrouted(g, k, outs[i]) {
      assert Inside(j, outs[i]);
    }
  }

  lemma RequestToDeviceIsPlaced(cfg: Config, g: Registries, k: Key, j: Key, task: Task)
    requires DevicesStored(g, k) && Typed(cfg, g, Call(j, "devices", "request", task))
    ensures NoneMisrouted(g, k, RequestToDevice(g, j, task))
  {
    hide Refuse, SerializeRequest, UserRequest, HomeAtManager, Inside;
    RefusalIsInside(j, task, "device not connected");
    InsideIsPlaced(g, k, j, Refuse(j, task, "device not connected"));
  }

  lemma {:induction false} CopiesArePlaced(g: Registries, k: Key, j: Key, m: Fields, ids: seq<Id>)
    requires NoId(m) && "metadata" in m && m["metadata"].Obj?
    ensures NoneMisrouted(g, k, Copies(j, m, ids))
  {
    if ids != [] {
      CopiesArePlaced(g, k, j, m, ids[1..]);
    }
  }

  lemma EmittedIsPlaced(g: Registries, k: Key, j: Key, m: Fields)
    requires NoId(m)
    ensures NoneMisrouted(g, k, EmitToSubscribers(g, j, m))
  {
    hide Copies, Misrouted;
    match MetadataText(m, "device-key")
    case None =>
    case Some(device) =>
      if (j, device) in g.subscribers {
        CopiesArePlaced(g, k, j, m, g.subscribers[(j, device)]);
      }
  }

  lemma DispatchedIsPlaced(cfg: Config, g: Registries, k: Key, from: Id, m: Fields)
    requires Typed(cfg, g, AtPlatform(from, m)) && !Misrouted(g, k, AtPlatform(from, m))
    ensures NoneMisrouted(g, k, PlatformDispatcher(from, m))
  {
    hide UserFrame, UserRequest, ActionFrame, OwnFrame, ParseRequest, Split, SerializeResponse, DeletedOf;
    EnteredDeletes(from, m);
    if IsRequest(m) && ParseRequest(m).Parsed? && "manager-key" !in ParseRequest(m).value.metadata {
      hide EnterPlatform;
      OwnRequestIsPlaced(g, k, from, ParseRequest(m).value);
    }
  }

  lemma OwnRequestIsPlaced(g: Registries, k: Key, from: Id, r: Request)
    requires !LinkOf(g, k, from)
    ensures forall q | q in EnterPlatform(from, r) ::
              !Misrouted(g, k, q) || (DeletedOf(q) == Some(k) && !q.PlatformWrite?)
  {
    hide Split, SerializeResponse, DeletedOf;
  }

  lemma ProfileIsPlaced(cfg: Config, g: Registries, k: Key, p: Packet, db: Answer)
    requires p.ProfileAuth? || p.PlatformService?
    requires Typed(cfg, g, p) && DeletedOf(p) != Some(k)
    ensures p.ProfileAuth? ==> NoneMisrouted(g, k, AuthenticateProfile(g, p.task, db))
    ensures p.PlatformService? ==> NoneMisrouted(g, k, RouteOnPlatform(p.task))
  {
    hide Split, SerializeResponse, DeletedBy, NamedKey, PlatformRequest, PlatformHandlers;
    AuthenticatedDeletes(g, p.task, db);
    RoutedDeletes(g, p.task);
  }

  lemma AnsweredIsPlaced(cfg: Config, g: Registries, k: Key, service: string, name: string, task: Task, db: Answer)
    requires RegistriesOk(g, true) && Typed(cfg, g, PlatformCall(service, name, task))
    requires DeletedOf(PlatformCall(service, name, task)) != Some(k)
    ensures NoneMisrouted(g, k, ServeOnPlatform(g, service, name, task, db))
  {
    hide SerializeResponse, SerializeRequest, Readable, Param;
  }

  lemma ToManagerIsPlaced(cfg: Config, g: Registries, k: Key, task: Task)
    requires Typed(cfg, g, ManagersRequest(task))
    ensures NoneMisrouted(g, k, RequestToManager(g.managers, task))
  {
    hide UserRequest, SerializeResponse, SerializeRequest, ParseRequest;
    match TextAt(task.request.metadata, "manager-key")
    case None =>
    case Some(key) =>
      RequestFrame(task.request.(metadata := task.request.metadata["transport" := Str(task.transportId)]));
      FarewellFrame(task.request.id);
  }

  lemma ToClientIsPlaced(cfg: Config, g: Registries, k: Key, m: Fields)
    requires Typed(cfg, g, ManagersResponse(m))
    ensures NoneMisrouted(g, k, ResponseToClient(m))
  {
    StrippedFrame(m);
  }

  lemma WrittenIsPlaced(cfg: Config, g: Registries, k: Key, p: Packet, db: Answer, via: Id)
    requires p.PlatformWrite? || p.ManagerWrite? || p.PlatformPipe?
    requires RegistriesOk(g, true) && Typed(cfg, g, p) && !Misrouted(g, k, p)
    ensures NoneMisrouted(g, k, Outputs(cfg, g, p, db, via))
  {
    hide UserFrame, DeviceFrame, ActionFrame, ReplyOrNotify, RelayedFrame, HomeAtManager, RegistriesOk;
    if p.PlatformPipe? && ToPlatform(g, p.manager, via, p.to, p.message) != [] {
      var m := p.message;
      var given := if "metadata" in m then m["metadata"].fields else map[];
      var metadata := if Contains(m, "transport") then given else given["transport" := Str(p.to)];
      MarkedFrame(m, metadata);
      PipedDeletesNothing(cfg, g, p, via, metadata);
    }
  }

  lemma ResponseIsPlaced(g: Registries, k: Key, j: Key, m: Fields)
    ensures NoneMisrouted(g, k, ResponseFromDevice(g, j, m))
  {
    StrippedFrame(m);
  }

  /** No handler misplaces a frame of the manager, as long as its devices have stored sessions. */
  lemma HandledIsPlaced(cfg: Config, g: Registries, k: Key, p: Packet, db: Answer, via: Id)
    requires RegistriesOk(g, true) && DevicesStored(g, k) && Typed(cfg, g, p) && !Misrouted(g, k, p)
    ensures NoneMisrouted(g, k, Outputs(cfg, g, p, db, via))
  {
    hide RegistriesOk, PlatformDispatcher, RequestToManager, ResponseToClient, ManagerDispatcher, Authenticate,
         RouteToService, Serve, EmitToSubscribers, ControlAnswers, WriteAtPlatform, WriteAtManager, ToPlatform,
         ResponseFromDevice, RequestToDevice, TaskOk, CallFits, Routed, FrameFromDevice, ReplyOrNotify, DeviceFrame,
         RelayedFrame, ActionFrame, UserFrame, HomeAtManager, AuthenticateProfile, RouteOnPlatform, ServeOnPlatform,
         DeletedOf, ProfileTask, Readable, OwnFrame, ToManagerFrame;
    match p
    case AtPlatform(from, m) => DispatchedIsPlaced(cfg, g, k, from, m);
    case ProfileAuth(_) => ProfileIsPlaced(cfg, g, k, p, db);
    case PlatformService(_) => ProfileIsPlaced(cfg, g, k, p, db);
    case PlatformCall(service, name, task) => AnsweredIsPlaced(cfg, g, k, service, name, task, db);
    case ManagersRequest(task) => ToManagerIsPlaced(cfg, g, k, task);
    case ManagersResponse(m) => ToClientIsPlaced(cfg, g, k, m);
    case PlatformWrite(_, _) => WrittenIsPlaced(cfg, g, k, p, db, via);
    case ManagerWrite(_, _, _) => WrittenIsPlaced(cfg, g, k, p, db, via);
    case PlatformPipe(_, _, _) => WrittenIsPlaced(cfg, g, k, p, db, via);
    case AtManager(j, from, m) =>
      if IsRequest(m) {
        RoutedIsInside(cfg, j, from, m);
        InsideIsPlaced(g, k, j, ManagerDispatcher(cfg, j, from, m));
      } else {
        PassedOnIsPlaced(cfg, g, k, j, from, m);
      }
    case UsersAuth(j, task) =>
      AuthIsInside(g, j, task, db);
      InsideIsPlaced(g, k, j, Authenticate(g, j, task, db));
    case Service(j, task) =>
      ServiceIsInside(j, task);
      InsideIsPlaced(g, k, j, RouteToService(j, task));
    case Call(j, service, name, task) => CalledIsPlaced(cfg, g, k, p, db);
    case Emit(j, m) => EmittedIsPlaced(g, k, j, m);
    case DevicesResponse(j, m) => ResponseIsPlaced(g, k, j, m);
    case _ => OthersArePlaced(cfg, g, k, p, db, via);
  }

  lemma PassedOnIsPlaced(cfg: Config, g: Registries, k: Key, j: Key, from: Id, m: Fields)
    requires !IsRequest(m)
    ensures NoneMisrouted(g, k, ManagerDispatcher(cfg, j, from, m))
  {
    hide ParseRequest, Split;
  }

  lemma CalledIsPlaced(cfg: Config, g: Registries, k: Key, p: Packet, db: Answer)
    requires p.Call? && DevicesStored(g, k) && Typed(cfg, g, p)
    ensures NoneMisrouted(g, k, Serve(g, p.manager, p.service, p.method_, p.task, db))
  {
    hide NoneMisrouted, RequestToDevice, DevicesStored;
    if p.service == "devices" && p.method_ == "request" {
      RequestToDeviceIsPlaced(cfg, g, k, p.manager, p.task);
    } else {
      hide Serve, Typed;
      ServedIsInside(g, p.manager, p.service, p.method_, p.task, db);
      InsideIsPlaced(g, k, p.manager, Serve(g, p.manager, p.service, p.method_, p.task, db));
    }
  }

  lemma OthersArePlaced(cfg: Config, g: Registries, k: Key, p: Packet, db: Answer, via: Id)
    requires p.AtPlatformClient? || p.DevicesNotify? || p.AtDevice? || p.Control? || p.DeviceWrite?
    requires Typed(cfg, g, p)
    ensures NoneMisrouted(g, k, Outputs(cfg, g, p, db, via))
  {
    hide ParseRequest, Split, SerializeResponse, SerializeNotify;
  }

  // ---------------------------------------------------------------- every step of a run that spares the manager

  predicate Placed(s: State, k: Key, via: Id) {
    && DevicesStored(s.g, k) && NoneMisrouted(s.g, k, s.flight) && SessionOf(s.g, via) == Some(ManagerLink(k))
  }

  /** A handler closes the connection only for a frame that went astray. */
  lemma HandledKeepsLink(cfg: Config, g: Registries, k: Key, via: Id, p: Packet, db: Answer)
    requires Typed(cfg, g, p) && !Misrouted(g, k, p) && SessionOf(g, via) == Some(ManagerLink(k))
    ensures SessionOf(Updated(g, p, db), via) == Some(ManagerLink(k))
  {
    hide UserRequest, ParseRequest, Param, AcceptsDevice, CallFits, TaskOk, Without;
    if p.AtPlatformClient? && p.manager == k {
      ReadFrame(p.message);
    }
  }

  lemma HandledKeepsDevices(cfg: Config, g: Registries, p: Packet, db: Answer)
    requires Typed(cfg, g, p)
    ensures Updated(g, p, db).devices == g.devices
  {
    hide UserRequest, ParseRequest, Param, AcceptsDevice, GroupsOf;
    if p.Call? {
      CallsRegisterNoDevice(cfg, g, p.manager, p.service, p.method_, p.task);
    }
  }

  lemma SamePlaces(g: Registries, h: Registries, k: Key, packets: seq<Packet>)
    requires NoneMisrouted(g, k, packets) && h.roles == g.roles && h.stored == g.stored
    ensures NoneMisrouted(h, k, packets)
  {
    assert forall id: Id :: LinkOf(h, k, id) == LinkOf(g, k, id);
    hide LinkOf;
    forall i | 0 <= i < |packets| ensures !Misrouted(h, k, packets[i]) {
      assert !Misrouted(g, k, packets[i]);
    }
  }

  lemma NoneMisroutedWithout(g: Registries, k: Key, packets: seq<Packet>, at: nat, outs: seq<Packet>)
    requires at < |packets| && NoneMisrouted(g, k, packets) && NoneMisrouted(g, k, outs)
    ensures NoneMisrouted(g, k, packets[..at] + packets[at + 1..] + outs)
  {
    hide Misrouted;
  }

  lemma DeliveryKeepsPlaced(cfg: Config, s: State, k: Key, via: Id, step: Step)
    requires Inv(cfg, true, s) && Placed(s, k, via) && Enabled(s, step)
    ensures Placed(Apply(cfg, s, step), k, via)
  {
    var p, h := s.flight[step.at], Updated(s.g, s.flight[step.at], step.db);
    var outs := Outputs(cfg, s.g, p, step.db, step.via);
    assert Shape(cfg, s.g, true, p);
    var t := Apply(cfg, s, step);
    assert t.g == h && t.flight == s.flight[..step.at] + s.flight[step.at + 1..] + outs;
    UpdatedKeeps(cfg, s.g, true, p, step.db);
    hide Outputs, Updated, Typed, RegistriesOk, AllShaped, CleanFrames, Conserved, Misrouted, SessionOf, Apply, Written,
         Entered, TokensOf, AnswersOf, TokenOf;
    HandledIsPlaced(cfg, s.g, k, p, step.db, step.via);
    HandledKeepsLink(cfg, s.g, k, via, p, step.db);
    HandledKeepsDevices(cfg, s.g, p, step.db);
    hide NoneMisrouted;
    NoneMisroutedWithout(s.g, k, s.flight, step.at, outs);
    SamePlaces(s.g, h, k, t.flight);
  }

  lemma ArrivalKeepsPlaced(cfg: Config, s: State, k: Key, via: Id, id: Id, m: Fields)
    requires Placed(s, k, via) && DeletedIn(s.g, ClientSends(id, m)) != Some(k)
    ensures Placed(Arrived(s, id, m), k, via)
  {
    hide TransportOf, DeletedBy;
  }

  /** Ids are not reused, so what is placed stays placed, and removing other sessions does not matter. */
  lemma PlacesPersist(cfg: Config, g: Registries, h: Registries, k: Key, packets: seq<Packet>)
    requires AllShaped(cfg, g, true, packets) && NoneMisrouted(g, k, packets) && Grows(g, h)
    requires forall id | id in g.stored && DeviceOf(g, k, id) :: id in h.stored
    ensures NoneMisrouted(h, k, packets)
  {
    forall i | 0 <= i < |packets| ensures !Misrouted(h, k, packets[i]) {
      assert Shape(cfg, g, true, packets[i]) && !Misrouted(g, k, packets[i]);
      PlacePersists(cfg, g, h, k, packets[i]);
    }
  }

  lemma PlacePersists(cfg: Config, g: Registries, h: Registries, k: Key, p: Packet)
    requires Typed(cfg, g, p) && !Misrouted(g, k, p) && Grows(g, h)
    requires forall id | id in g.stored && DeviceOf(g, k, id) :: id in h.stored
    ensures !Misrouted(h, k, p)
  {
    assert forall id: Id :: RoleOf(g, id).Some? ==> RoleOf(h, id) == RoleOf(g, id);
    hide Grows, UserFrame, DeviceFrame, ActionFrame, ReplyOrNotify, RelayedFrame, TransportOf, RoleOf;
  }

  lemma RegistryStepKeepsPlaced(cfg: Config, s: State, k: Key, via: Id, step: Step)
    requires Inv(cfg, true, s) && Placed(s, k, via) && Spares(cfg, s, k, step)
    requires !step.Deliver? && !step.ClientSends?
    ensures Placed(Apply(cfg, s, step), k, via)
  {
    RegistryStepKeeps(cfg, s, true, step);
    var t := Apply(cfg, s, step);
    hide AllShaped, NoneMisrouted, Grows, CleanFrames, Conserved, StrictStep, Enabled, Handled, Arrived;
    assert forall id | id in s.g.stored && DeviceOf(s.g, k, id) :: id in t.g.stored;
    PlacesPersist(cfg, s.g, t.g, k, s.flight);
  }

  lemma StepKeepsPlaced(cfg: Config, s: State, k: Key, via: Id, step: Step)
    requires Inv(cfg, true, s) && Placed(s, k, via) && Spares(cfg, s, k, step)
    ensures Placed(Apply(cfg, s, step), k, via)
  {
    if step.ClientSends? {
      ArrivalKeepsPlaced(cfg, s, k, via, step.id, step.message);
    } else if step.Deliver? {
      hide Inv, Placed;
      if Enabled(s, step) {
        DeliveryKeepsPlaced(cfg, s, k, via, step);
      }
    } else {
      RegistryStepKeepsPlaced(cfg, s, k, via, step);
    }
  }

  lemma {:induction false} SparingRunKeepsPlaced(cfg: Config, s: State, k: Key, via: Id, steps: seq<Step>)
    requires Inv(cfg, true, s) && Placed(s, k, via) && SparingRun(cfg, s, k, steps)
    ensures Inv(cfg, true, Run(cfg, s, steps)) && Placed(Run(cfg, s, steps), k, via)
    decreases |steps|
  {
    hide Inv, Placed, Apply, StrictStep;
    if steps != [] {
      var before, step := steps[..|steps| - 1], steps[|steps| - 1];
      SparingRunKeepsPlaced(cfg, s, k, via, before);
      StepKeepsInv(cfg, true, Run(cfg, s, before), step);
      StepKeepsPlaced(cfg, Run(cfg, s, before), k, via, step);
    }
  }

  lemma {:induction false} SparingRunKeepsInv(cfg: Config, s: State, k: Key, steps: seq<Step>)
    requires Inv(cfg, true, s) && SparingRun(cfg, s, k, steps)
    ensures Inv(cfg, true, Run(cfg, s, steps))
    decreases |steps|
  {
    hide Inv, Apply, StrictStep;
    if steps != [] {
      SparingRunKeepsInv(cfg, s, k, steps[..|steps| - 1]);
      StepKeepsInv(cfg, true, Run(cfg, s, steps[..|steps| - 1]), steps[|steps| - 1]);
    }
  }

  // ---------------------------------------------------------------- without, a request cuts the connection

  lemma {:induction false} PoliteSpares(cfg: Config, s: State, k: Key, steps: seq<Step>)
    requires Polite(cfg, s, steps)
    ensures SparingRun(cfg, s, k, steps)
    decreases |steps|
  {
    hide StrictStep, Run, DeletedIn;
    if steps != [] {
      PoliteSpares(cfg, s, k, steps[..|steps| - 1]);
    }
  }

  lemma ToTheRefusal(cfg: Config, s: State, g: Registries, k: Key, via: Id, to: Id, c: Id, action: string)
    returns (refusal: Fields)
    requires action in ACTIONS
    requires SessionOf(g, via) == Some(ManagerLink(k)) && to !in g.stored
    requires Reaches(cfg, s, g, ManagerWrite(k, to, ActionRequest(c, action)))
    ensures Reaches(cfg, s, g, AtPlatformClient(k, refusal)) && !IsRequest(refusal) && ClosesManager(refusal)
  {
    hide Reaches, ParseRequest, SerializeRequest, SerializeResponse, Split, TransportOf;
    var r := Request(Null, action, Null, map["transport" := Str(c)]);
    var m, metadata := ActionRequest(c, action), map["transport" := Str(to)];
    RequestFrame(r);
    assert m["metadata"] == Obj(r.metadata) && "metadata" in m && "transport" !in m by { ActionMetadata(c, action); }
    assert r.metadata["transport" := Str(to)] == metadata;
    var marked := m["metadata" := Obj(metadata)];
    MarkedFrame(m, metadata);
    MarkedRequest(m, metadata);
    ControlMethods();
    refusal := ErrorMessage(Null, "access is denied");
    ReplyFrame(Null, Null, Some(RpcError(UNKNOWN_ERROR_CODE, "access is denied", Null)));
    ReachesNext(cfg, s, g, ManagerWrite(k, to, m), PlatformPipe(k, to, m), Failed(""), "");
    ReachesNext(cfg, s, g, PlatformPipe(k, to, m), AtPlatform(via, marked), Failed(""), via);
    ReachesNext(cfg, s, g, AtPlatform(via, marked), PlatformWrite(via, refusal), Failed(""), "");
    ReachesNext(cfg, s, g, PlatformWrite(via, refusal), AtPlatformClient(k, refusal), Failed(""), "");
  }

  lemma ActionMetadata(c: Id, action: string)
    ensures var m := ActionRequest(c, action);
            "metadata" in m && "transport" !in m && m["metadata"] == Obj(map["transport" := Str(c)])
  {
  }

  /** The connection is closed, and nothing is in flight or deregistered. */
  predicate CutOff(s: State, t: State, via: Id) {
    via !in t.g.live && t.flight == [] && t.g.managers == s.g.managers
  }

  lemma RefusalCuts(cfg: Config, s: State, g: Registries, k: Key, via: Id, refusal: Fields)
    requires Reaches(cfg, s, g, AtPlatformClient(k, refusal)) && !IsRequest(refusal) && ClosesManager(refusal)
    requires SessionOf(g, via) == Some(ManagerLink(k)) && g.managers == s.g.managers
    ensures exists steps :: SparingRun(cfg, s, k, steps) && CutOff(s, Run(cfg, s, steps), via)
  {
    hide Run, Polite, PoliteStep, TokenOf, TokensOf, SparingRun, ClosesManager, IsRequest;
    var p := AtPlatformClient(k, refusal);
    var steps :| Polite(cfg, s, steps) && Run(cfg, s, steps).g == g && Run(cfg, s, steps).flight == [p];
    DeliverOnly(cfg, s, steps, p, Failed(""), "");
    DeliveryIsPolite(cfg, Run(cfg, s, steps), Failed(""), "");
    PoliteMore(cfg, s, steps, Deliver(0, Failed(""), ""));
    PoliteSpares(cfg, s, k, steps + [Deliver(0, Failed(""), "")]);
    assert CutOff(s, Run(cfg, s, steps + [Deliver(0, Failed(""), "")]), via);
  }

  /** A request for a device whose session is forgotten costs the manager its connection. */
  lemma ForgottenDeviceCuts(cfg: Config, s: State, k: Key, via: Id, device: Key)
    requires Inv(cfg, true, s) && s.flight == [] && SessionOf(s.g, via) == Some(ManagerLink(k))
    requires (k, device) in s.g.devices && device != "" && s.g.devices[(k, device)] !in s.g.stored
    ensures exists steps :: SparingRun(cfg, s, k, steps) && CutOff(s, Run(cfg, s, steps), via)
  {
    hide Reaches, SparingRun, Run, AllShaped, CleanFrames, Conserved, ClosesManager;
    var c := FreshId(s.g);
    var g := Opened(s.g, c, LocalClient(k));
    var to := s.g.devices[(k, device)];
    assert to in s.g.roles;
    hide RegistriesOk;
    var h := RequestIsWritten(cfg, s, k, device, c, "control.on");
    var refusal := ToTheRefusal(cfg, s, h, k, via, to, c, "control.on");
    RefusalCuts(cfg, s, h, k, via, refusal);
  }

  /** From a quiet state the connection survives everything that clients may ask and databases answer, if
      and only if every registered device has a session that the listener of the manager still knows. */
  lemma LinkSurvivesIff(cfg: Config, s: State, k: Key, via: Id)
    requires Inv(cfg, true, s) && s.flight == [] && SessionOf(s.g, via) == Some(ManagerLink(k))
    ensures (forall steps | SparingRun(cfg, s, k, steps) :: via in Run(cfg, s, steps).g.live)
       <==> DevicesStored(s.g, k)
  {
    hide Inv, SparingRun, Run;
    if DevicesStored(s.g, k) {
      assert Placed(s, k, via);
      forall steps | SparingRun(cfg, s, k, steps) ensures via in Run(cfg, s, steps).g.live {
        SparingRunKeepsPlaced(cfg, s, k, via, steps);
      }
    } else {
      var d :| d in s.g.devices && d.0 == k && d.1 != "" && s.g.devices[d] !in s.g.stored;
      assert d == (k, d.1);
      ForgottenDeviceCuts(cfg, s, k, via, d.1);
    }
  }
}
