/** When the relay answers every request: exactly when all registered sessions are live. */
module RelayLosses {
  import opened JsonValue
  import opened JsonRpc
  import opened Options
  import opened Relay
  import opened RelayRun
  import opened RelayShape
  import opened RelayMessages
  import opened RelayHandlers
  import opened RelayInside
  import opened RelayInvariant
  import opened RelayDismissal
  import opened RelayWitness

  /** Every manager and every device that is registered has a live session. A request with an empty device
      key is refused before it gets to the device. */
  predicate RegistryLive(g: Registries) {
    && (forall k | k in g.managers :: g.managers[k] in g.live)
    && (forall d | d in g.devices && d.1 != "" :: g.devices[d] in g.live)
  }

  /** The client of a request that is in manager `k` can be reached from there. */
  predicate Reachable(g: Registries, k: Key, c: Id) {
    SessionOf(g, c) == Some(LocalClient(k)) || (SessionOf(g, c) == Some(Client) && LinkLive(g, k))
  }

  predicate ReachableFrom(g: Registries, k: Key, tokens: seq<Token>) {
    forall i | 0 <= i < |tokens| :: Reachable(g, k, tokens[i].0)
  }

  predicate OnPlatform(g: Registries, tokens: seq<Token>) {
    forall i | 0 <= i < |tokens| :: SessionOf(g, tokens[i].0) == Some(Client)
  }

  /** The session of a device that is registered. */
  predicate Known(g: Registries, k: Key, link: Id) {
    match RoleOf(g, link)
    case Some(DeviceLink(owner, device)) => owner == k && (k, device) in g.devices
    case _ => false
  }

  predicate KnownDevice(g: Registries, k: Key, m: Fields) {
    MetadataText(m, "device-key").Some? && (k, MetadataText(m, "device-key").value) in g.devices
  }

  predicate AtKnown(g: Registries, link: Id, tokens: seq<Token>) {
    match RoleOf(g, link)
    case Some(DeviceLink(k, _)) => Known(g, k, link) && ReachableFrom(g, k, tokens)
    case _ => false
  }

  /** A request of a client, and not the platform's own to disconnect. */
  predicate Stays(m: Fields) {
    IsRequest(m) && m != Farewell(m["id"])
  }

  /** Nothing stands between the packet and the answer to its request. */
  predicate Sound(g: Registries, p: Packet) {
    var tokens := TokenOf(p);
    match p
    case AtPlatform(_, _) => OnPlatform(g, tokens) && DeletedOf(p).None?
    case ProfileAuth(_) => OnPlatform(g, tokens) && DeletedOf(p).None?
    case PlatformService(_) => OnPlatform(g, tokens) && DeletedOf(p).None?
    case PlatformCall(_, _, _) => OnPlatform(g, tokens) && DeletedOf(p).None?
    case ManagersRequest(_) => OnPlatform(g, tokens)
    case ManagersResponse(_) => OnPlatform(g, tokens)
    case PlatformWrite(to, m) =>
      && OnPlatform(g, tokens)
      && if Stays(m) then SessionOf(g, to).Some? && SessionOf(g, to).value.ManagerLink?
         else !IsRequest(m) && IsClient(g, to)
    case AtPlatformClient(k, m) => Stays(m) && LinkLive(g, k) && OnPlatform(g, tokens)
    case AtManager(k, _, m) =>
      ReachableFrom(g, k, tokens) && (!IsRequest(m) && tokens != [] ==> KnownDevice(g, k, m))
    case UsersAuth(k, _) => ReachableFrom(g, k, tokens)
    case Service(k, _) => ReachableFrom(g, k, tokens)
    case Call(k, _, _, _) => ReachableFrom(g, k, tokens)
    case DevicesResponse(k, m) => ReachableFrom(g, k, tokens) && KnownDevice(g, k, m)
    case ManagerWrite(k, to, m) =>
      ReachableFrom(g, k, tokens) && (IsRequest(m) ==> to in g.live && Known(g, k, to))
    case PlatformPipe(k, to, m) => !IsRequest(m) && ReachableFrom(g, k, tokens) && OnPlatform(g, tokens)
    case AtDevice(link, _) => AtKnown(g, link, tokens)
    case Control(link, _, _) => AtKnown(g, link, tokens)
    case DeviceWrite(link, _, _) => AtKnown(g, link, tokens)
    case _ => true
  }

  predicate AllSound(g: Registries, packets: seq<Packet>) {
    forall i | 0 <= i < |packets| :: Sound(g, packets[i])
  }

  // ---------------------------------------------------------------- handlers

  /** One packet with the same request follows, or nothing where there is none. */
  predicate PassedOn(p: Packet, outs: seq<Packet>) {
    && |outs| <= 1 && (TokenOf(p) != [] ==> |outs| == 1)
    && forall i | 0 <= i < |outs| :: TokenOf(outs[i]) == TokenOf(p)
  }

  lemma MovedIsPassedOn(cfg: Config, g: Registries, p: Packet, outs: seq<Packet>)
    requires MovesOnce(cfg, g, true, p, outs)
    ensures PassedOn(p, outs)
  {
    hide Shape, TokenOf, Rank, Rearms;
    forall i | 0 <= i < |outs| ensures TokenOf(outs[i]) == TokenOf(p) {
      assert Moves(cfg, g, true, p, outs[i]);
    }
  }

  /** Inside a manager a request stays with its client. */
  lemma InsideIsSound(g: Registries, k: Key, p: Packet, outs: seq<Packet>)
    requires AllInside(k, outs) && PassedOn(p, outs) && ReachableFrom(g, k, TokenOf(p))
    ensures AllSound(g, outs)
  {
    hide TokenOf, ReachableFrom;
    forall i | 0 <= i < |outs| ensures Sound(g, outs[i]) {
      assert Inside(k, outs[i]) && TokenOf(outs[i]) == TokenOf(p);
    }
  }

  lemma DispatchedIsSound(cfg: Config, g: Registries, from: Id, m: Fields)
    requires Typed(cfg, g, AtPlatform(from, m)) && Sound(g, AtPlatform(from, m))
    ensures AllSound(g, PlatformDispatcher(from, m))
  {
    hide UserRequest, ParseRequest, Split, SerializeResponse, DeletedOf, EnterPlatform, PlatformRequest;
    EnteredDeletes(from, m);
    if IsRequest(m) && ParseRequest(m).Parsed? {
      ReadFrame(m);
      assert TokenOf(AtPlatform(from, m))[0].0 == from;
      if "manager-key" !in ParseRequest(m).value.metadata {
        OwnRequestIsSound(g, from, ParseRequest(m).value);
      }
    }
  }

  lemma OwnRequestIsSound(g: Registries, from: Id, r: Request)
    requires SessionOf(g, from) == Some(Client)
    ensures forall q | q in EnterPlatform(from, r) && DeletedOf(q).None? :: Sound(g, q)
  {
    hide Split, SerializeResponse, DeletedOf;
    ReplyFrame(r.id, Null, Some(RpcError(UNKNOWN_ERROR_CODE, "not specified correctly method", Null)));
    ReplyFrame(r.id, Null, Some(RpcError(UNKNOWN_ERROR_CODE, "access is denied", Null)));
  }

  lemma AnswerIsSound(g: Registries, task: Task, text: string, result: Value)
    requires SessionOf(g, task.transportId) == Some(Client)
    ensures AllSound(g, PlatformRefuse(task, text)) && AllSound(g, PlatformReply(task, result))
  {
    hide SerializeResponse;
    ReplyFrame(task.request.id, Null, Some(RpcError(UNKNOWN_ERROR_CODE, text, Null)));
    ReplyFrame(task.request.id, result, None);
  }

  lemma ProfileIsSound(cfg: Config, g: Registries, p: Packet, db: Answer)
    requires (p.ProfileAuth? || p.PlatformService?) && Typed(cfg, g, p) && Sound(g, p)
    ensures p.ProfileAuth? ==> AllSound(g, AuthenticateProfile(g, p.task, db))
    ensures p.PlatformService? ==> AllSound(g, RouteOnPlatform(p.task))
  {
    hide Split, PlatformRefuse, PlatformReply, DeletedBy, NamedKey, PlatformRequest, PlatformHandlers;
    assert TokenOf(p)[0].0 == p.task.transportId;
    AuthenticatedDeletes(g, p.task, db);
    RoutedDeletes(g, p.task);
    AnswerIsSound(g, p.task, if db.Failed? then db.what else "authentication bad", Null);
    AnswerIsSound(g, p.task, "service not found", Null);
    AnswerIsSound(g, p.task, "method not found", Null);
  }

  lemma AnsweredOnPlatformIsSound(cfg: Config, g: Registries, p: Packet, db: Answer)
    requires p.PlatformCall? && Typed(cfg, g, p) && Sound(g, p)
    ensures AllSound(g, ServeOnPlatform(g, p.service, p.method_, p.task, db)) && !Dismisses(g, p, db)
  {
    hide PlatformRefuse, PlatformReply, Readable, Param;
    assert TokenOf(p)[0].0 == p.task.transportId;
    AnswerIsSound(g, p.task, if db.Failed? then db.what else "manager not found", Bool(true));
    AnswerIsSound(g, p.task, "key manager empty", Arr(if db.Found? then db.rows else []));
  }

  lemma ToManagerIsSound(cfg: Config, g: Registries, task: Task)
    requires RegistriesOk(g, true) && RegistryLive(g)
    requires Typed(cfg, g, ManagersRequest(task)) && Sound(g, ManagersRequest(task))
    ensures AllSound(g, RequestToManager(g.managers, task))
  {
    hide UserRequest, SerializeResponse, SerializeRequest, ParseRequest;
    assert TokenOf(ManagersRequest(task))[0].0 == task.transportId;
    match TextAt(task.request.metadata, "manager-key")
    case None =>
    case Some(key) =>
      RequestFrame(task.request.(metadata := task.request.metadata["transport" := Str(task.transportId)]));
      ReplyFrame(task.request.id, Null, Some(RpcError(UNKNOWN_ERROR_CODE, "manager not connection", Null)));
      FarewellFrame(task.request.id);
  }

  lemma ToClientIsSound(cfg: Config, g: Registries, m: Fields)
    requires Typed(cfg, g, ManagersResponse(m)) && Sound(g, ManagersResponse(m))
    ensures AllSound(g, ResponseToClient(m))
  {
    StrippedFrame(m);
  }

  lemma IntoManagerIsSound(g: Registries, k: Key, m: Fields)
    requires Sound(g, AtPlatformClient(k, m))
    ensures AllSound(g, FromPlatform(k, m))
  {
    hide ParseRequest, LinkLive;
    if ParseRequest(m).Parsed? {
      ReadFrame(m);
    }
  }

  lemma RequestToDeviceIsSound(cfg: Config, g: Registries, k: Key, task: Task)
    requires RegistriesOk(g, true) && RegistryLive(g)
    requires Typed(cfg, g, Call(k, "devices", "request", task)) && Sound(g, Call(k, "devices", "request", task))
    ensures AllSound(g, RequestToDevice(g, k, task))
  {
    hide SerializeRequest, SerializeResponse, UserRequest, HomeAtManager, LinkLive, ParseRequest;
    ReplyFrame(task.request.id, Null, Some(RpcError(UNKNOWN_ERROR_CODE, "device not connected", Null)));
    match (TextAt(task.request.metadata, "device-key"), Param(task.request, "action"))
    case (Some(device), Some(action)) =>
      RequestFrame(Request(task.request.id, action, Null, map["transport" := Str(task.transportId)]));
    case _ =>
  }

  lemma AnsweredIsSound(g: Registries, k: Key, m: Fields)
    requires Sound(g, DevicesResponse(k, m))
    ensures AllSound(g, ResponseFromDevice(g, k, m))
  {
    hide LinkLive;
    StrippedFrame(m);
  }

  lemma FromDeviceIsSound(cfg: Config, g: Registries, link: Id, to: Id, m: Fields)
    requires Typed(cfg, g, DeviceWrite(link, to, m)) && Sound(g, DeviceWrite(link, to, m))
    requires PassedOn(DeviceWrite(link, to, m), Outputs(cfg, g, DeviceWrite(link, to, m), Failed(""), ""))
    ensures AllSound(g, Outputs(cfg, g, DeviceWrite(link, to, m), Failed(""), ""))
  {
    hide TokenOf, ReachableFrom;
    match RoleOf(g, link)
    case Some(DeviceLink(k, device)) =>
      var metadata := map["transport" := Str(to)]["device-key" := Str(device)]
                         ["manager-key" := Str(k)]["user-key" := Str(cfg(k))];
      MarkedFrame(m, metadata);
    case _ =>
  }

  /** A handler passes on or answers all that its packet asks. */
  predicate Lossless(g: Registries, p: Packet, outs: seq<Packet>) {
    TokensOf(outs) + AnswersOf(Written(g, p)) == multiset(TokenOf(p)) + Entered(p, outs)
  }

  lemma PassedOnIsLossless(g: Registries, p: Packet, outs: seq<Packet>)
    requires PassedOn(p, outs) && Written(g, p) == [] && Entered(p, outs) == multiset{}
    ensures Lossless(g, p, outs)
  {
    hide TokenOf, Written, Entered, TokensOf;
    NoAnswers();
    if outs == [] {
      assert TokensOf(outs) == multiset{} by { NoTokens(); }
    } else {
      assert outs == [outs[0]];
      TokensOfOne(outs[0]);
    }
  }

  lemma NoTokens()
    ensures TokensOf([]) == multiset{}
  {
  }

  lemma WrittenIsLossless(g: Registries, p: Packet, f: Frame)
    requires Written(g, p) == [f] && AnswerOf(f) == TokenOf(p) && !p.PlatformPipe?
    ensures Lossless(g, p, [])
  {
    hide TokenOf, Written, AnswerOf;
    AnswersOfOne(f);
  }

  lemma PlatformWriteIsSound(cfg: Config, g: Registries, to: Id, m: Fields)
    requires Typed(cfg, g, PlatformWrite(to, m)) && Sound(g, PlatformWrite(to, m))
    ensures var p, outs := PlatformWrite(to, m), WriteAtPlatform(g, to, m);
            AllSound(g, outs) && Lossless(g, p, outs)
  {
    hide RelayedFrame, Lossless;
    var p, outs := PlatformWrite(to, m), WriteAtPlatform(g, to, m);
    assert !IsRequest(m) && "id" in m ==> TokenOf(p) != [] && TokenOf(p)[0].0 == to;
    if IsRequest(m) {
      PassedOnIsLossless(g, p, outs);
    } else if SessionOf(g, to) == Some(Client) {
      WrittenIsLossless(g, p, Frame(to, m));
    } else {
      PassedOnIsLossless(g, p, outs);
    }
  }

  lemma ManagerWriteIsSound(cfg: Config, g: Registries, k: Key, to: Id, m: Fields)
    requires RegistriesOk(g, true) && Typed(cfg, g, ManagerWrite(k, to, m)) && Sound(g, ManagerWrite(k, to, m))
    ensures var p, outs := ManagerWrite(k, to, m), WriteAtManager(g, k, to, m);
            AllSound(g, outs) && Lossless(g, p, outs)
  {
    hide DeviceFrame, ReplyOrNotify, Lossless, LinkLive;
    var p, outs := ManagerWrite(k, to, m), WriteAtManager(g, k, to, m);
    if IsRequest(m) {
      PassedOnIsLossless(g, p, outs);
    } else if SessionOf(g, to) == Some(LocalClient(k)) {
      WrittenIsLossless(g, p, Frame(to, m));
    } else {
      if "id" in m {
        assert TokenOf(p)[0].0 == to;
      }
      PassedOnIsLossless(g, p, outs);
    }
  }

  lemma PipedIsSound(cfg: Config, g: Registries, k: Key, via: Id, to: Id, m: Fields)
    requires Typed(cfg, g, PlatformPipe(k, to, m)) && Sound(g, PlatformPipe(k, to, m))
    requires LinkLive(g, k) ==> SessionOf(g, via) == Some(ManagerLink(k))
    ensures var p, outs := PlatformPipe(k, to, m), ToPlatform(g, k, via, to, m);
            AllSound(g, outs) && Lossless(g, p, outs)
  {
    hide Lossless, LinkLive;
    var p, outs := PlatformPipe(k, to, m), ToPlatform(g, k, via, to, m);
    var given := if "metadata" in m then m["metadata"].fields else map[];
    var metadata := given["transport" := Str(to)];
    MarkedFrame(m, metadata);
    if "id" in m {
      assert TokenOf(p)[0].0 == to;
    }
    PassedOnIsLossless(g, p, outs);
  }

  lemma ControlWrites(g: Registries, link: Id, name: string, task: Task)
    ensures var outs := ControlAnswers(g, link, name, task);
            && |outs| > 0 && outs[0].DeviceWrite? && outs[0].link == link
            && (|outs| == 2 ==> outs[1].DeviceWrite? && outs[1].link == link)
  {
    hide SerializeResponse, SerializeNotify;
  }

  lemma ControlIsSound(cfg: Config, g: Registries, link: Id, name: string, task: Task)
    requires Typed(cfg, g, Control(link, name, task)) && Sound(g, Control(link, name, task))
    ensures var p, outs := Control(link, name, task), ControlAnswers(g, link, name, task);
            AllSound(g, outs) && Lossless(g, p, outs)
  {
    var p, outs := Control(link, name, task), ControlAnswers(g, link, name, task);
    ControlAnswersOnce(cfg, g, true, link, name, task);
    ControlWrites(g, link, name, task);
    hide ControlAnswers, LinkLive, TokenOf, Typed, Bare, Rank, AnswersOf, TokensOf, RoleOf, Known, ReachableFrom;
    NoAnswers();
    TokensOfOne(outs[0]);
    if |outs| == 2 {
      assert outs == [outs[0]] + [outs[1]];
      TokensOfJoin([outs[0]], [outs[1]]);
      TokensOfOne(outs[1]);
    } else {
      assert outs == [outs[0]];
    }
  }

  lemma {:induction false} CopiesAreSound(g: Registries, k: Key, m: Fields, ids: seq<Id>)
    requires NoId(m) && "metadata" in m && m["metadata"].Obj?
    ensures AllSound(g, Copies(k, m, ids)) && TokensOf(Copies(k, m, ids)) == multiset{}
  {
    hide Sound, TokenOf;
    if ids == [] {
      NoTokens();
    } else {
      CopiesAreSound(g, k, m, ids[1..]);
      var first := ManagerWrite(k, ids[0], m["metadata" := Obj(m["metadata"].fields["transport" := Str(ids[0])])]);
      CopyIsSound(g, first);
      var rest := Copies(k, m, ids[1..]);
      assert Copies(k, m, ids) == [first] + rest;
      TokensOfJoin([first], rest);
      TokensOfOne(first);
      hide TokensOf, Copies;
      assert multiset(TokenOf(first)) + multiset{} == multiset{};
    }
  }

  lemma CopyIsSound(g: Registries, p: Packet)
    requires p.ManagerWrite? && NoId(p.message)
    ensures Sound(g, p) && TokenOf(p) == []
  {
  }

  lemma EmittedIsSound(g: Registries, k: Key, m: Fields)
    requires NoId(m)
    ensures var outs := EmitToSubscribers(g, k, m);
            AllSound(g, outs) && Lossless(g, Emit(k, m), outs)
  {
    hide Copies, TokensOf, AnswersOf, Sound;
    NoAnswers();
    NoTokens();
    match MetadataText(m, "device-key")
    case None =>
    case Some(device) =>
      if (k, device) in g.subscribers {
        CopiesAreSound(g, k, m, g.subscribers[(k, device)]);
      }
  }

  lemma ResponseIsLossless(cfg: Config, g: Registries, k: Key, m: Fields)
    requires Typed(cfg, g, DevicesResponse(k, m)) && Sound(g, DevicesResponse(k, m))
    ensures Lossless(g, DevicesResponse(k, m), ResponseFromDevice(g, k, m))
  {
    hide Lossless, LinkLive;
    StrippedFrame(m);
    PassedOnIsLossless(g, DevicesResponse(k, m), ResponseFromDevice(g, k, m));
  }

  /** The handlers that pass a request on. */
  lemma OthersAreSound(cfg: Config, g: Registries, p: Packet, db: Answer, via: Id)
    requires RegistriesOk(g, true) && RegistryLive(g) && Typed(cfg, g, p) && Bare(p) && Sound(g, p)
    requires !p.PlatformWrite? && !p.ManagerWrite? && !p.Control? && !p.DevicesResponse? && !p.PlatformPipe? && !p.Emit?
    ensures PassedOn(p, Outputs(cfg, g, p, db, via)) && AllSound(g, Outputs(cfg, g, p, db, via))
  {
    var outs := Outputs(cfg, g, p, db, via);
    if p.PlatformCall? {
      AnsweredOnPlatformIsSound(cfg, g, p, db);
    }
    OthersMove(cfg, g, true, p, db, via);
    MovedIsPassedOn(cfg, g, p, outs);
    hide RegistriesOk, RegistryLive, Typed, PassedOn, AllSound, MovesOnce, PlatformDispatcher, RequestToManager,
         ResponseToClient, FromPlatform, RequestToDevice, Serve, ManagerDispatcher, Authenticate, RouteToService,
         ReachableFrom, DeviceDispatcher, NotifyFromDevice, FromDevice, TokenOf, AtKnown, KnownDevice, OnPlatform,
         AuthenticateProfile, RouteOnPlatform, ServeOnPlatform, DeletedOf, Dismisses;
    match p
    case AtPlatform(from, m) => DispatchedIsSound(cfg, g, from, m);
    case ManagersRequest(task) => ToManagerIsSound(cfg, g, task);
    case ManagersResponse(m) => ToClientIsSound(cfg, g, m);
    case AtPlatformClient(k, m) => IntoManagerIsSound(g, k, m);
    case AtManager(k, from, m) => EnteredIsSound(cfg, g, k, from, m);
    case UsersAuth(k, task) =>
      AuthIsInside(g, k, task, db);
      InsideIsSound(g, k, p, outs);
    case Service(k, task) =>
      ServiceIsInside(k, task);
      InsideIsSound(g, k, p, outs);
    case Call(k, service, name, task) => CalledIsSound(cfg, g, p, outs, db);
    case DeviceWrite(link, to, m) => FromDeviceIsSound(cfg, g, link, to, m);
    case AtDevice(link, m) => AtDeviceIsSound(g, link, m);
    case DevicesNotify(k, m) => NotifyIsSound(g, k, m);
    case ProfileAuth(_) => ProfileIsSound(cfg, g, p, db);
    case PlatformService(_) => ProfileIsSound(cfg, g, p, db);
    case PlatformCall(_, _, _) => AnsweredOnPlatformIsSound(cfg, g, p, db);
  }

  lemma EnteredIsSound(cfg: Config, g: Registries, k: Key, from: Id, m: Fields)
    requires Sound(g, AtManager(k, from, m))
    requires Typed(cfg, g, AtManager(k, from, m))
    requires PassedOn(AtManager(k, from, m), ManagerDispatcher(cfg, k, from, m))
    ensures AllSound(g, ManagerDispatcher(cfg, k, from, m))
  {
    hide ReachableFrom, UserFrame, KnownDevice, HomeAtManager;
    if IsRequest(m) {
      RoutedIsInside(cfg, k, from, m);
      hide PassedOn, ManagerDispatcher, AllSound, TokenOf;
      InsideIsSound(g, k, AtManager(k, from, m), ManagerDispatcher(cfg, k, from, m));
    }
  }

  lemma CalledIsSound(cfg: Config, g: Registries, p: Packet, outs: seq<Packet>, db: Answer)
    requires RegistriesOk(g, true) && RegistryLive(g)
    requires p.Call? && outs == Serve(g, p.manager, p.service, p.method_, p.task, db)
    requires Typed(cfg, g, p) && Sound(g, p) && PassedOn(p, outs)
    ensures AllSound(g, outs)
  {
    hide RegistriesOk, RegistryLive, Typed, PassedOn, AllSound, RequestToDevice, TokenOf, ReachableFrom;
    if p.service == "devices" && p.method_ == "request" {
      RequestToDeviceIsSound(cfg, g, p.manager, p.task);
    } else {
      hide Serve;
      ServedIsInside(g, p.manager, p.service, p.method_, p.task, db);
      InsideIsSound(g, p.manager, p, outs);
    }
  }

  lemma AtDeviceIsSound(g: Registries, link: Id, m: Fields)
    requires Sound(g, AtDevice(link, m)) && PassedOn(AtDevice(link, m), DeviceDispatcher(link, m))
    ensures AllSound(g, DeviceDispatcher(link, m))
  {
    hide TokenOf, AtKnown, ParseRequest, Split;
  }

  lemma NotifyIsSound(g: Registries, k: Key, m: Fields)
    ensures AllSound(g, NotifyFromDevice(g, k, m))
  {
  }

  /** Between live sessions no handler drops a request. */
  lemma HandledIsSound(cfg: Config, g: Registries, p: Packet, db: Answer, via: Id)
    requires RegistriesOk(g, true) && RegistryLive(g) && Typed(cfg, g, p) && Bare(p) && Sound(g, p)
    requires p.PlatformPipe? && LinkLive(g, p.manager) ==> SessionOf(g, via) == Some(ManagerLink(p.manager))
    ensures AllSound(g, Outputs(cfg, g, p, db, via)) && Lossless(g, p, Outputs(cfg, g, p, db, via))
  {
    hide RegistriesOk, RegistryLive, AllSound, Lossless, LinkLive, SessionOf, TokenOf, Typed, Bare, PassedOn;
    if p.PlatformWrite? {
      PlatformWriteIsSound(cfg, g, p.to, p.message);
    } else if p.ManagerWrite? {
      ManagerWriteIsSound(cfg, g, p.manager, p.to, p.message);
    } else if p.PlatformPipe? {
      PipedIsSound(cfg, g, p.manager, via, p.to, p.message);
    } else if p.Control? {
      ControlIsSound(cfg, g, p.link, p.method_, p.task);
    } else if p.Emit? {
      EmitHasNoId(cfg, g, p);
      EmittedIsSound(g, p.manager, p.message);
    } else if p.DevicesResponse? {
      AnsweredIsSound(g, p.manager, p.message);
      ResponseIsLossless(cfg, g, p.manager, p.message);
    } else {
      OthersAreSound(cfg, g, p, db, via);
      hide Sound, Outputs;
      PassedOnIsLossless(g, p, Outputs(cfg, g, p, db, via));
    }
  }

  lemma EmitHasNoId(cfg: Config, g: Registries, p: Packet)
    requires p.Emit? && Typed(cfg, g, p)
    ensures NoId(p.message)
  {
  }

  // ---------------------------------------------------------------- every step of a calm run

  predicate CalmStep(cfg: Config, s: State, step: Step) {
    && StrictStep(cfg, s, step) && DeletedIn(s.g, step).None?
    && !step.Close? && !step.Remove? && !step.DeregisterDevice?
  }

  /** Clients send well-typed requests, and nobody closes, removes or deregisters a session or deletes a
      manager but the relay itself. */
  predicate CalmRun(cfg: Config, s: State, steps: seq<Step>)
    decreases |steps|
  {
    steps != [] ==>
      && CalmRun(cfg, s, steps[..|steps| - 1])
      && CalmStep(cfg, Run(cfg, s, steps[..|steps| - 1]), steps[|steps| - 1])
  }

  lemma {:induction false} PoliteIsCalm(cfg: Config, s: State, steps: seq<Step>)
    requires Polite(cfg, s, steps)
    ensures CalmRun(cfg, s, steps)
    decreases |steps|
  {
    hide StrictStep, Run, DeletedIn;
    if steps != [] {
      PoliteIsCalm(cfg, s, steps[..|steps| - 1]);
    }
  }

  predicate Healthy(s: State) {
    RegistryLive(s.g) && AllSound(s.g, s.flight)
  }

  /** Sessions stay live and devices stay registered. */
  predicate Holds(g: Registries, h: Registries) {
    Grows(g, h) && g.live <= h.live && g.devices.Keys <= h.devices.Keys
  }

  lemma SessionsPersist(g: Registries, h: Registries)
    requires Holds(g, h)
    ensures forall id: Id :: SessionOf(g, id).Some? ==> SessionOf(h, id) == SessionOf(g, id)
    ensures forall id: Id :: RoleOf(g, id).Some? ==> RoleOf(h, id) == RoleOf(g, id)
    ensures forall k: Key :: LinkLive(g, k) ==> LinkLive(h, k)
  {
    forall k: Key | LinkLive(g, k) ensures LinkLive(h, k) {
      var id :| id in g.live && RoleOf(g, id) == Some(ManagerLink(k));
      assert id in h.live && RoleOf(h, id) == Some(ManagerLink(k));
    }
  }

  lemma SoundPersists(g: Registries, h: Registries, p: Packet)
    requires Holds(g, h) && Sound(g, p)
    ensures Sound(h, p)
  {
    SessionsPersist(g, h);
    hide SessionOf, RoleOf, LinkLive, TokenOf, Grows, MetadataText;
  }

  lemma AllSoundPersists(g: Registries, h: Registries, packets: seq<Packet>)
    requires Holds(g, h) && AllSound(g, packets)
    ensures AllSound(h, packets)
  {
    hide Sound, Holds;
    forall i | 0 <= i < |packets| ensures Sound(h, packets[i]) {
      SoundPersists(g, h, packets[i]);
    }
  }

  lemma AllSoundWithout(g: Registries, packets: seq<Packet>, at: nat, outs: seq<Packet>)
    requires at < |packets| && AllSound(g, packets) && AllSound(g, outs)
    ensures AllSound(g, packets[..at] + packets[at + 1..] + outs)
  {
    hide Sound;
  }

  lemma CallHolds(cfg: Config, g: Registries, p: Packet, db: Answer)
    requires p.Call? && Typed(cfg, g, p)
    ensures var h := UpdatedByManager(g, p.manager, p.service, p.method_, p.task, db);
            h.roles == g.roles && h.live == g.live && h.devices == g.devices && h.managers == g.managers
  {
    CallsRegisterNoDevice(cfg, g, p.manager, p.service, p.method_, p.task);
    hide Typed, Param, GroupsOf, Without, AllText;
  }

  /** No handler closes a session. */
  lemma HandledHolds(cfg: Config, g: Registries, p: Packet, db: Answer)
    requires Typed(cfg, g, p) && Sound(g, p)
    ensures var h := Updated(g, p, db);
            h.roles == g.roles && h.live == g.live && h.devices == g.devices && h.managers == g.managers
  {
    hide UserRequest, ParseRequest, Param, HomeAtManager, TokenOf, OnPlatform, ReachableFrom, AtKnown, UpdatedByManager,
         CallFits, TaskOk;
    if p.Call? {
      CallHolds(cfg, g, p, db);
    } else if p.AtPlatformClient? {
      ReadFrame(p.message);
    }
  }

  lemma DeliveryKeepsHealthy(cfg: Config, s: State, step: Step)
    requires Inv(cfg, true, s) && Healthy(s) && Enabled(s, step)
    ensures Healthy(Apply(cfg, s, step)) && Apply(cfg, s, step).dropped == s.dropped
  {
    var p, h := s.flight[step.at], Updated(s.g, s.flight[step.at], step.db);
    var outs, t := Outputs(cfg, s.g, p, step.db, step.via), Apply(cfg, s, step);
    assert Shape(cfg, s.g, true, p);
    assert t.g == h && t.flight == s.flight[..step.at] + s.flight[step.at + 1..] + outs;
    hide Outputs, Updated, Typed, RegistriesOk, AllShaped, CleanFrames, Conserved, Apply, LinkLive, SessionOf,
         Written, Entered, TokensOf, AnswersOf, TokenOf, Sound;
    HandledIsSound(cfg, s.g, p, step.db, step.via);
    HandledHolds(cfg, s.g, p, step.db);
    AllSoundWithout(s.g, s.flight, step.at, outs);
    hide AllSound;
    assert RegistryLive(h);
    AllSoundPersists(s.g, h, t.flight);
    DroppedNothing(cfg, s, step);
  }

  lemma DroppedNothing(cfg: Config, s: State, step: Step)
    requires Enabled(s, step)
    requires Lossless(s.g, s.flight[step.at], Outputs(cfg, s.g, s.flight[step.at], step.db, step.via))
    ensures Apply(cfg, s, step).dropped == s.dropped
  {
    hide Outputs, Updated, Written, Entered, TokensOf, AnswersOf, TokenOf, Enabled;
    assert step.Deliver? && step.at < |s.flight| by { EnabledIsThere(s, step); }
  }

  lemma ArrivalKeepsHealthy(cfg: Config, s: State, id: Id, m: Fields)
    requires Healthy(s) && StrictFrame(cfg, s.g, id, m) && DeletedIn(s.g, ClientSends(id, m)).None?
    ensures Healthy(Arrived(s, id, m)) && Arrived(s, id, m).dropped == s.dropped
    ensures Arrived(s, id, m).forged == s.forged
  {
    hide UserRequest, ParseRequest, LinkLive, TransportOf, MetadataText, DeletedBy, PlatformRequest;
  }

  lemma RegistryStepHolds(cfg: Config, s: State, step: Step)
    requires RegistryLive(s.g) && !step.Deliver? && !step.ClientSends?
    requires !step.Close? && !step.Remove? && !step.DeregisterDevice?
    ensures var h := Apply(cfg, s, step).g;
            RegistryLive(h) && s.g.live <= h.live && s.g.devices.Keys <= h.devices.Keys
  {
    hide Enabled, Handled, Arrived;
  }

  lemma RegistryStepKeepsHealthy(cfg: Config, s: State, step: Step)
    requires Inv(cfg, true, s) && Healthy(s) && !step.Deliver? && !step.ClientSends?
    requires !step.Close? && !step.Remove? && !step.DeregisterDevice?
    ensures Healthy(Apply(cfg, s, step)) && Apply(cfg, s, step).dropped == s.dropped
  {
    hide RegistryLive, AllSound, AllShaped, CleanFrames, Conserved, RegistriesOk, Apply, Grows;
    RegistryStepKeeps(cfg, s, true, step);
    RegistryStepHolds(cfg, s, step);
    AllSoundPersists(s.g, Apply(cfg, s, step).g, s.flight);
  }

  lemma StepKeepsHealthy(cfg: Config, s: State, step: Step)
    requires Inv(cfg, true, s) && Healthy(s) && CalmStep(cfg, s, step)
    ensures Healthy(Apply(cfg, s, step)) && Apply(cfg, s, step).dropped == s.dropped
    ensures Apply(cfg, s, step).forged == s.forged
  {
    hide Inv, Healthy, Handled, Enabled, Arrived, StrictFrame, DeletedIn;
    if step.ClientSends? {
      ArrivalKeepsHealthy(cfg, s, step.id, step.message);
    } else if step.Deliver? {
      if Enabled(s, step) {
        DeliveryKeepsHealthy(cfg, s, step);
        assert step.at < |s.flight| by { EnabledIsThere(s, step); }
        assert Handled(cfg, s, step.at, step.db, step.via).forged == s.forged by {
          HandlingForgesNothing(cfg, s, step);
        }
      }
    } else {
      RegistryStepKeepsHealthy(cfg, s, step);
    }
  }

  lemma HandlingForgesNothing(cfg: Config, s: State, step: Step)
    requires step.Deliver? && step.at < |s.flight|
    ensures Handled(cfg, s, step.at, step.db, step.via).forged == s.forged
  {
    hide Outputs, Updated, Written, Entered, TokensOf, AnswersOf, TokenOf;
  }

  /** From a healthy state a calm run drops nothing. */
  lemma {:induction false} CalmDropsNothing(cfg: Config, s: State, steps: seq<Step>)
    requires Inv(cfg, true, s) && Healthy(s) && CalmRun(cfg, s, steps)
    ensures var t := Run(cfg, s, steps);
            Inv(cfg, true, t) && Healthy(t) && t.dropped == s.dropped && t.forged == s.forged
    decreases |steps|
  {
    hide Inv, Healthy, Apply, StrictStep;
    if steps != [] {
      var before, step := steps[..|steps| - 1], steps[|steps| - 1];
      CalmDropsNothing(cfg, s, before);
      StepKeepsInv(cfg, true, Run(cfg, s, before), step);
      StepKeepsHealthy(cfg, Run(cfg, s, before), step);
    }
  }

  // ---------------------------------------------------------------- with a dead session something is dropped

  lemma {:induction false} DroppedStays(cfg: Config, s: State, steps: seq<Step>)
    ensures s.dropped <= Run(cfg, s, steps).dropped
    decreases |steps|
  {
    hide Outputs, Updated, Written, Entered, TokensOf, AnswersOf, TokenOf, Enabled, Opened, SessionOf;
    if steps != [] {
      DroppedStays(cfg, s, steps[..|steps| - 1]);
    }
  }

  /** A request that nothing follows is dropped. */
  lemma DeadEnd(cfg: Config, s: State, g: Registries, p: Packet)
    requires Reaches(cfg, s, g, p) && TokenOf(p) != [] && !p.PlatformPipe? && Written(g, p) == []
    requires TokensOf(Outputs(cfg, g, p, Failed(""), "")) == multiset{}
    ensures exists steps :: CalmRun(cfg, s, steps) && Run(cfg, s, steps).dropped != s.dropped
  {
    hide Run, Outputs, Updated, Written, TokenOf, TokensOf, AnswersOf, Polite, PoliteStep, CalmRun;
    var steps :| Polite(cfg, s, steps) && Run(cfg, s, steps).g == g && Run(cfg, s, steps).flight == [p];
    var last := Deliver(0, Failed(""), "");
    DroppedStays(cfg, s, steps);
    OneMore(cfg, s, steps, last);
    NoAnswers();
    DeliveryIsPolite(cfg, Run(cfg, s, steps), Failed(""), "");
    PoliteMore(cfg, s, steps, last);
    PoliteIsCalm(cfg, s, steps + [last]);
    var r := Run(cfg, s, steps);
    assert Run(cfg, s, steps + [last]).dropped == r.dropped + multiset(TokenOf(p));
    assert |Run(cfg, s, steps + [last]).dropped| > |r.dropped|;
    NoFewer(s.dropped, r.dropped);
  }

  lemma NoFewer(a: multiset<Token>, b: multiset<Token>)
    requires a <= b
    ensures |a| <= |b|
  {
    assert b == a + (b - a);
  }

  /** A request for a device whose session is not live is dropped. */
  lemma DeadDeviceDrops(cfg: Config, s: State, k: Key, device: Key)
    requires Inv(cfg, true, s) && s.flight == []
    requires (k, device) in s.g.devices && device != "" && s.g.devices[(k, device)] !in s.g.live
    ensures exists steps :: CalmRun(cfg, s, steps) && Run(cfg, s, steps).dropped != s.dropped
  {
    hide Reaches, Run, AllShaped, CleanFrames, Conserved, CalmRun, SerializeRequest, ParseRequest, Opened;
    var c := FreshId(s.g);
    var g, to := Opened(s.g, c, LocalClient(k)), s.g.devices[(k, device)];
    assert to in s.g.roles;
    assert to !in g.live by { OthersStay(s.g, c, LocalClient(k), to); }
    hide RegistriesOk;
    var h := RequestIsWritten(cfg, s, k, device, c, "control.on");
    DeadSessionSwallows(cfg, h, k, to, c, "control.on");
    hide Outputs, Written, TokenOf, TokensOf;
    DeadEnd(cfg, s, h, ManagerWrite(k, to, ActionRequest(c, "control.on")));
  }

  lemma OthersStay(g: Registries, c: Id, session: Session, id: Id)
    requires id != c
    ensures id in Opened(g, c, session).live <==> id in g.live
  {
  }

  /** What is written to the session of a device that is not live never reaches it. */
  lemma DeadSessionSwallows(cfg: Config, g: Registries, k: Key, to: Id, c: Id, action: string)
    requires to !in g.live
    ensures var p := ManagerWrite(k, to, ActionRequest(c, action));
            && TokenOf(p) != [] && Written(g, p) == []
            && TokensOf(Outputs(cfg, g, p, Failed(""), "")) == multiset{}
  {
    hide SerializeRequest, ParseRequest, IsLocal;
    RequestFrame(Request(Null, action, Null, map["transport" := Str(c)]));
    var q := PlatformPipe(k, to, ActionRequest(c, action));
    assert TokenOf(q) == [];
    var outs := Outputs(cfg, g, ManagerWrite(k, to, ActionRequest(c, action)), Failed(""), "");
    assert outs == [] || outs == [q];
    TokensOfOne(q);
    NoTokens();
  }

  function AnyRequest(k: Key): Request {
    Request(Null, "x", Null, map["manager-key" := Str(k)])
  }

  lemma RequestIsRelayed(cfg: Config, s: State, g: Registries, k: Key, c: Id)
    requires s.flight == [] && c !in s.g.roles && g == Opened(s.g, c, Client) && k in s.g.managers
    ensures var r := AnyRequest(k);
            var marked := r.(metadata := r.metadata["transport" := Str(c)]);
            Reaches(cfg, s, g, PlatformWrite(s.g.managers[k], SerializeRequest(marked)))
  {
    hide Reaches, SerializeRequest, ParseRequest;
    var r := AnyRequest(k);
    RequestFrame(r);
    var marked := r.(metadata := r.metadata["transport" := Str(c)]);
    ClientAsks(cfg, s, c, Client, SerializeRequest(r));
    ReachesNext(cfg, s, g, AtPlatform(c, SerializeRequest(r)), ManagersRequest(Task(c, r, map[])), Failed(""), "");
    ReachesNext(cfg, s, g, ManagersRequest(Task(c, r, map[])),
                PlatformWrite(s.g.managers[k], SerializeRequest(marked)), Failed(""), "");
  }

  /** A request for a manager whose connection is not live is dropped. */
  lemma DeadManagerDrops(cfg: Config, s: State, k: Key)
    requires Inv(cfg, true, s) && s.flight == [] && k in s.g.managers && s.g.managers[k] !in s.g.live
    ensures exists steps :: CalmRun(cfg, s, steps) && Run(cfg, s, steps).dropped != s.dropped
  {
    hide Reaches, Run, AllShaped, CleanFrames, Conserved, CalmRun, SerializeRequest, ParseRequest, Opened;
    var c := FreshId(s.g);
    var g, to := Opened(s.g, c, Client), s.g.managers[k];
    assert to in s.g.roles && LinkOf(s.g, k, to);
    assert to !in g.live by { OthersStay(s.g, c, Client, to); }
    hide RegistriesOk, RoleOf;
    var r := AnyRequest(k);
    var marked := r.(metadata := r.metadata["transport" := Str(c)]);
    RequestIsRelayed(cfg, s, g, k, c);
    RequestFrame(marked);
    var p := PlatformWrite(to, SerializeRequest(marked));
    assert TokenOf(p) == [(c, Null)];
    NoTokens();
    hide TokensOf;
    DeadEnd(cfg, s, g, p);
  }

  /** From a quiet state no request is ever dropped, whatever clients ask and databases answer, if and only
      if every registered manager and every registered device has a live session. */
  lemma NothingLostIff(cfg: Config, s: State)
    requires Inv(cfg, true, s) && s.flight == []
    ensures (forall steps | CalmRun(cfg, s, steps) :: Run(cfg, s, steps).dropped == s.dropped)
       <==> RegistryLive(s.g)
  {
    assert AllSound(s.g, s.flight);
    hide Inv, AllSound, CalmRun, Run;
    if RegistryLive(s.g) {
      forall steps | CalmRun(cfg, s, steps) ensures Run(cfg, s, steps).dropped == s.dropped {
        CalmDropsNothing(cfg, s, steps);
      }
    } else if k: Key :| k in s.g.managers && s.g.managers[k] !in s.g.live {
      DeadManagerDrops(cfg, s, k);
    } else {
      var d :| d in s.g.devices && d.1 != "" && s.g.devices[d] !in s.g.live;
      assert d == (d.0, d.1);
      DeadDeviceDrops(cfg, s, d.0, d.1);
    }
  }

  /** As long as only the relay itself closes sessions, nothing is dropped, and once nothing is in flight
      every request was answered exactly once. */
  lemma CalmAnswersAll(cfg: Config, steps: seq<Step>)
    requires CalmRun(cfg, INITIAL, steps)
    ensures var s := Run(cfg, INITIAL, steps);
            && s.dropped == multiset{} && s.forged == multiset{}
            && (s.flight == [] ==> AnswersOf(s.written) == s.received)
  {
    hide Run, CalmRun, AnswersOf, Inv, Healthy;
    InitialInv(cfg, true);
    InitiallyHealthy();
    CalmDropsNothing(cfg, INITIAL, steps);
    QuietMeansAnswered(cfg, steps);
    NothingMore(Run(cfg, INITIAL, steps).received);
    NothingMore(AnswersOf(Run(cfg, INITIAL, steps).written));
  }

  lemma InitiallyHealthy()
    ensures Healthy(INITIAL) && INITIAL.dropped == multiset{} && INITIAL.forged == multiset{}
  {
  }

  lemma NothingMore(a: multiset<Token>)
    ensures a + multiset{} == a
  {
  }
}
