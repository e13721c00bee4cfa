/** Over every run of the relay each request is answered at most once, and to the session that asked. */
module RelayInvariant {
  import opened JsonValue
  import opened JsonRpc
  import opened Options
  import opened Relay
  import opened RelayRun
  import opened RelayShape
  import opened RelayMessages
  import opened RelayHandlers

  // ---------------------------------------------------------------- bags of tokens

  lemma Associates(a: multiset<Token>, b: multiset<Token>, c: multiset<Token>)
    ensures a + (b + c) == (a + b) + c
  {
  }

  lemma {:induction false} TokensOfJoin(a: seq<Packet>, b: seq<Packet>)
    ensures TokensOf(a + b) == TokensOf(a) + TokensOf(b)
  {
    hide TokenOf;
    if a == [] {
      assert a + b == b;
    } else {
      assert a + b == [a[0]] + (a[1..] + b);
      assert TokensOf(a + b) == multiset(TokenOf(a[0])) + TokensOf(a[1..] + b);
      assert TokensOf(a) == multiset(TokenOf(a[0])) + TokensOf(a[1..]);
      hide TokensOf;
      TokensOfJoin(a[1..], b);
      Associates(multiset(TokenOf(a[0])), TokensOf(a[1..]), TokensOf(b));
    }
  }

  lemma {:induction false} AnswersOfJoin(a: seq<Frame>, b: seq<Frame>)
    ensures AnswersOf(a + b) == AnswersOf(a) + AnswersOf(b)
  {
    hide AnswerOf;
    if a == [] {
      assert a + b == b;
    } else {
      assert a + b == [a[0]] + (a[1..] + b);
      assert AnswersOf(a + b) == multiset(AnswerOf(a[0])) + AnswersOf(a[1..] + b);
      assert AnswersOf(a) == multiset(AnswerOf(a[0])) + AnswersOf(a[1..]);
      hide AnswersOf;
      AnswersOfJoin(a[1..], b);
      Associates(multiset(AnswerOf(a[0])), AnswersOf(a[1..]), AnswersOf(b));
    }
  }

  lemma TokensOfOne(p: Packet)
    ensures TokensOf([p]) == multiset(TokenOf(p))
  {
    hide TokenOf;
    assert [p][1..] == [];
  }

  lemma AnswersOfOne(f: Frame)
    ensures AnswersOf([f]) == multiset(AnswerOf(f))
  {
    hide AnswerOf;
    assert [f][1..] == [];
  }

  /** Taking one packet out takes its token out. */
  lemma TokensOfWithout(packets: seq<Packet>, at: nat)
    requires at < |packets|
    ensures TokensOf(packets) == TokensOf(packets[..at] + packets[at + 1..]) + multiset(TokenOf(packets[at]))
  {
    hide TokensOf, TokenOf;
    TokensOfJoin(packets[..at], packets[at + 1..]);
    TokensOfJoin([packets[at]], packets[at + 1..]);
    TokensOfJoin(packets[..at], [packets[at]] + packets[at + 1..]);
    assert packets == packets[..at] + ([packets[at]] + packets[at + 1..]);
    TokensOfOne(packets[at]);
  }

  // ---------------------------------------------------------------- one handler accounts for its packet

  /** What a handler passes on and answers is the request of its packet, if anything. */
  predicate Honest(g: Registries, p: Packet, outs: seq<Packet>) {
    TokensOf(outs) + AnswersOf(Written(g, p)) <= multiset(TokenOf(p)) + Entered(p, outs)
  }

  predicate Accounts(cfg: Config, g: Registries, strict: bool, p: Packet, outs: seq<Packet>) {
    && AllShaped(cfg, g, strict, outs) && Honest(g, p, outs)
    && (strict ==> CleanFrames(cfg, g, Written(g, p)))
  }

  lemma MovedAccounts(cfg: Config, g: Registries, strict: bool, p: Packet, outs: seq<Packet>)
    requires MovesOnce(cfg, g, strict, p, outs) && Written(g, p) == [] && Entered(p, outs) == multiset{}
    ensures Accounts(cfg, g, strict, p, outs)
  {
    hide Shape, Rank, TokenOf, Written, Entered, Rearms;
    if outs != [] {
      assert outs == [outs[0]];
      assert Moves(cfg, g, strict, p, outs[0]);
      TokensOfOne(outs[0]);
      hide MovesOnce, Moves, TokensOf, AnswersOf;
      assert AnswersOf([]) == multiset{} by { NoAnswers(); }
    }
  }

  lemma NoAnswers()
    ensures AnswersOf([]) == multiset{}
  {
  }

  lemma {:induction false} TokenlessJoin(outs: seq<Packet>)
    requires forall i | 0 <= i < |outs| :: TokenOf(outs[i]) == []
    ensures TokensOf(outs) == multiset{}
  {
    hide TokenOf;
    if outs != [] {
      TokenlessJoin(outs[1..]);
    }
  }

  lemma ControlAccounts(cfg: Config, g: Registries, strict: bool, link: Id, name: string, task: Task)
    requires Shape(cfg, g, strict, Control(link, name, task))
    ensures Accounts(cfg, g, strict, Control(link, name, task), ControlAnswers(g, link, name, task))
  {
    var p, outs := Control(link, name, task), ControlAnswers(g, link, name, task);
    ControlAnswersOnce(cfg, g, strict, link, name, task);
    hide Shape, ControlAnswers, Rank;
    TokensOfOne(outs[0]);
    if |outs| == 2 {
      TokensOfJoin([outs[0]], [outs[1]]);
      assert outs == [outs[0]] + [outs[1]];
      TokensOfOne(outs[1]);
    } else {
      assert outs == [outs[0]];
    }
  }

  lemma DismissalAccounts(cfg: Config, g: Registries, strict: bool, p: Packet, db: Answer)
    requires RegistriesOk(g, strict) && Shape(cfg, g, strict, p) && Dismisses(g, p, db)
    ensures Accounts(cfg, g, strict, p, ServeOnPlatform(g, p.service, p.method_, p.task, db))
  {
    var outs := ServeOnPlatform(g, p.service, p.method_, p.task, db);
    DismissalMoves(cfg, g, strict, p.service, p.method_, p.task, db);
    hide Shape, ServeOnPlatform, Rank, TokenOf, RegistriesOk;
    NoAnswers();
    if outs == [] {
      NothingAccounts(cfg, g, strict, p);
    } else {
      assert outs == [outs[0]] + [outs[1]];
      TokensOfJoin([outs[0]], [outs[1]]);
      TokensOfOne(outs[0]);
      TokensOfOne(outs[1]);
    }
  }

  /** A packet that goes to one place. */
  lemma ForwardedAccounts(cfg: Config, g: Registries, strict: bool, p: Packet, q: Packet)
    requires Shape(cfg, g, strict, q) && (TokenOf(q) == TokenOf(p) || TokenOf(q) == []) && Written(g, p) == []
    ensures Accounts(cfg, g, strict, p, [q])
  {
    hide Shape, TokenOf;
    TokensOfOne(q);
  }

  lemma WrittenAccounts(cfg: Config, g: Registries, strict: bool, p: Packet, f: Frame, outs: seq<Packet>)
    requires Written(g, p) == [f] && (AnswerOf(f) == TokenOf(p) || AnswerOf(f) == [])
    requires strict ==> CleanFrame(cfg, g, f)
    requires AllShaped(cfg, g, strict, outs) && forall i | 0 <= i < |outs| :: TokenOf(outs[i]) == []
    ensures Accounts(cfg, g, strict, p, outs)
  {
    hide Shape, TokenOf, AnswerOf, CleanFrame;
    AnswersOfOne(f);
    TokenlessJoin(outs);
  }

  lemma NothingAccounts(cfg: Config, g: Registries, strict: bool, p: Packet)
    requires Written(g, p) == []
    ensures Accounts(cfg, g, strict, p, [])
  {
  }

  lemma PlatformWriteAccounts(cfg: Config, g: Registries, strict: bool, to: Id, m: Fields)
    requires Shape(cfg, g, strict, PlatformWrite(to, m))
    ensures Accounts(cfg, g, strict, PlatformWrite(to, m), WriteAtPlatform(g, to, m))
  {
    hide UserFrame, Accounts;
    var p := PlatformWrite(to, m);
    match SessionOf(g, to)
    case Some(ManagerLink(k)) =>
      if IsRequest(m) {
        ForwardedAccounts(cfg, g, strict, p, AtPlatformClient(k, m));
      } else {
        WrittenAccounts(cfg, g, strict, p, Frame(to, m), [AtPlatformClient(k, m)]);
      }
    case Some(Client) => WrittenAccounts(cfg, g, strict, p, Frame(to, m), []);
    case _ => NothingAccounts(cfg, g, strict, p);
  }

  lemma ManagerWriteAccounts(cfg: Config, g: Registries, strict: bool, k: Key, to: Id, m: Fields)
    requires RegistriesOk(g, strict) && Shape(cfg, g, strict, ManagerWrite(k, to, m))
    ensures Accounts(cfg, g, strict, ManagerWrite(k, to, m), WriteAtManager(g, k, to, m))
  {
    hide UserRequest, Accounts, ParseRequest;
    var p := ManagerWrite(k, to, m);
    if !IsLocal(g, k, to) || to !in g.stored {
      if IsRequest(m) && strict {
        ReadFrame(m);
      }
      ForwardedAccounts(cfg, g, strict, p, PlatformPipe(k, to, m));
    } else if to !in g.live {
      NothingAccounts(cfg, g, strict, p);
    } else if g.roles[to].DeviceLink? {
      ForwardedAccounts(cfg, g, strict, p, AtDevice(to, m));
    } else {
      WrittenAccounts(cfg, g, strict, p, Frame(to, m), []);
    }
  }

  lemma PipedRequest(cfg: Config, g: Registries, strict: bool, k: Key, via: Id, to: Id, m: Fields)
    requires Shape(cfg, g, strict, PlatformPipe(k, to, m)) && IsRequest(m)
    ensures Accounts(cfg, g, strict, PlatformPipe(k, to, m), ToPlatform(g, k, via, to, m))
  {
    hide UserRequest, ParseRequest;
    var outs := ToPlatform(g, k, via, to, m);
    if outs != [] && strict {
      ReadMetadata(m);
      var given := m["metadata"].fields;
      var metadata := if Contains(m, "transport") then given else given["transport" := Str(to)];
      MarkedFrame(m, metadata);
      MarkedRequest(m, metadata);
      assert ActionFrame(m["metadata" := Obj(metadata)]);
    }
  }

  lemma PipedReply(cfg: Config, g: Registries, strict: bool, k: Key, via: Id, to: Id, m: Fields)
    requires Shape(cfg, g, strict, PlatformPipe(k, to, m)) && !IsRequest(m)
    ensures Accounts(cfg, g, strict, PlatformPipe(k, to, m), ToPlatform(g, k, via, to, m))
  {
    hide UserRequest, ParseRequest;
    var outs := ToPlatform(g, k, via, to, m);
    if outs != [] {
      var given := if "metadata" in m then m["metadata"].fields else map[];
      var metadata := if Contains(m, "transport") then given else given["transport" := Str(to)];
      MarkedFrame(m, metadata);
      var q := AtPlatform(via, m["metadata" := Obj(metadata)]);
      assert outs == [q];
      ForwardedAccounts(cfg, g, strict, PlatformPipe(k, to, m), q);
    } else {
      NothingAccounts(cfg, g, strict, PlatformPipe(k, to, m));
    }
  }

  lemma NotifyMoves(cfg: Config, g: Registries, strict: bool, k: Key, m: Fields)
    requires Shape(cfg, g, strict, DevicesNotify(k, m))
    ensures MovesOnce(cfg, g, strict, DevicesNotify(k, m), NotifyFromDevice(g, k, m))
  {
    hide FrameFromDevice;
  }

  lemma {:induction false} CopiesShaped(cfg: Config, g: Registries, strict: bool, k: Key, m: Fields, ids: seq<Id>)
    requires Shape(cfg, g, strict, Emit(k, m)) && "metadata" in m && m["metadata"].Obj?
    requires strict ==> forall i | 0 <= i < |ids| :: HomeAtManager(g, k, ids[i])
    ensures forall p | p in Copies(k, m, ids) :: Shape(cfg, g, strict, p) && TokenOf(p) == []
  {
    if ids != [] {
      CopiesShaped(cfg, g, strict, k, m, ids[1..]);
      var metadata := m["metadata"].fields["transport" := Str(ids[0])];
      MarkedFrame(m, metadata);
      var first := ManagerWrite(k, ids[0], m["metadata" := Obj(metadata)]);
      assert Shape(cfg, g, strict, first) && TokenOf(first) == [];
      hide Shape, TokenOf;
      assert Copies(k, m, ids) == [first] + Copies(k, m, ids[1..]);
    }
  }

  lemma EmitAccounts(cfg: Config, g: Registries, strict: bool, k: Key, m: Fields)
    requires RegistriesOk(g, strict) && Shape(cfg, g, strict, Emit(k, m))
    ensures Accounts(cfg, g, strict, Emit(k, m), EmitToSubscribers(g, k, m))
  {
    hide TokenOf, Copies, Shape;
    var outs := EmitToSubscribers(g, k, m);
    match MetadataText(m, "device-key")
    case None => NothingAccounts(cfg, g, strict, Emit(k, m));
    case Some(device) =>
      if (k, device) in g.subscribers {
        CopiesShaped(cfg, g, strict, k, m, g.subscribers[(k, device)]);
      }
      TokenlessJoin(outs);
  }

  /** Every other handler but those of sessions and devices. */
  lemma OthersMove(cfg: Config, g: Registries, strict: bool, p: Packet, db: Answer, via: Id)
    requires RegistriesOk(g, strict) && Shape(cfg, g, strict, p) && !p.PlatformWrite? && !p.ManagerWrite?
    requires !p.Control? && !p.DevicesResponse? && !p.PlatformPipe? && !p.Emit?
    requires p.PlatformCall? ==> !Dismisses(g, p, db)
    ensures MovesOnce(cfg, g, strict, p, Outputs(cfg, g, p, db, via))
  {
    hide MovesOnce, RegistriesOk, PlatformDispatcher, RequestToManager, ResponseToClient, FromPlatform,
         ManagerDispatcher, Authenticate, RouteToService, Serve, DeviceDispatcher, FromDevice, NotifyFromDevice,
         AuthenticateProfile, RouteOnPlatform, ServeOnPlatform, Dismisses;
    match p
    case AtPlatform(from, m) => AtPlatformMoves(cfg, g, strict, from, m);
    case ProfileAuth(task) => ProfileMoves(cfg, g, strict, task, db);
    case PlatformService(task) => RoutedOnPlatform(cfg, g, strict, task);
    case PlatformCall(service, name, task) => ServedOnPlatform(cfg, g, strict, service, name, task, db);
    case ManagersRequest(task) => ToManagerMoves(cfg, g, strict, task);
    case ManagersResponse(m) => ToClientMoves(cfg, g, strict, m);
    case AtPlatformClient(k, m) => FromPlatformMoves(cfg, g, strict, k, m);
    case AtManager(k, from, m) => AtManagerMoves(cfg, g, strict, k, from, m);
    case UsersAuth(k, task) => AuthMoves(cfg, g, strict, k, task, db);
    case Service(k, task) => ServiceMoves(cfg, g, strict, k, task);
    case Call(k, service, name, task) => ServeMoves(cfg, g, strict, k, service, name, task, db);
    case DevicesNotify(k, m) => NotifyMoves(cfg, g, strict, k, m);
    case AtDevice(link, m) => AtDeviceMoves(cfg, g, strict, link, m);
    case DeviceWrite(link, to, m) =>
      match RoleOf(g, link) {
        case Some(DeviceLink(k, device)) => DeviceWriteMoves(cfg, g, strict, k, device, link, to, m);
        case _ => NothingMoves(cfg, g, p);
      }
  }

  lemma LooseMoves(cfg: Config, g: Registries, strict: bool, p: Packet, outs: seq<Packet>)
    requires |outs| <= 1 && forall i | 0 <= i < |outs| :: Moves(cfg, g, strict, p, outs[i])
    requires Written(g, p) == [] && Entered(p, outs) == multiset{}
    ensures Accounts(cfg, g, strict, p, outs)
  {
    hide Shape, Rank, TokenOf, Written, Entered, Rearms;
    if outs == [] {
      NothingAccounts(cfg, g, strict, p);
    } else {
      assert outs == [outs[0]];
      ForwardedAccounts(cfg, g, strict, p, outs[0]);
    }
  }

  lemma OthersAccount(cfg: Config, g: Registries, strict: bool, p: Packet, db: Answer, via: Id)
    requires RegistriesOk(g, strict) && Shape(cfg, g, strict, p) && !p.PlatformWrite? && !p.ManagerWrite?
    requires !p.Control? && !p.DevicesResponse? && !p.PlatformPipe? && !p.Emit?
    requires p.PlatformCall? ==> !Dismisses(g, p, db)
    ensures Accounts(cfg, g, strict, p, Outputs(cfg, g, p, db, via))
  {
    hide Dismisses, Accounts, Shape, RegistriesOk, Outputs, MovesOnce;
    OthersMove(cfg, g, strict, p, db, via);
    MovedAccounts(cfg, g, strict, p, Outputs(cfg, g, p, db, via));
  }

  lemma HandledAccounts(cfg: Config, g: Registries, strict: bool, p: Packet, db: Answer, via: Id)
    requires RegistriesOk(g, strict) && Shape(cfg, g, strict, p)
    ensures Accounts(cfg, g, strict, p, Outputs(cfg, g, p, db, via))
  {
    hide Accounts, Shape, RegistriesOk, WriteAtPlatform, WriteAtManager, ControlAnswers, ResponseFromDevice,
         ToPlatform, EmitToSubscribers, Moves, Dismisses, ServeOnPlatform;
    match p
    case PlatformWrite(to, m) => PlatformWriteAccounts(cfg, g, strict, to, m);
    case ManagerWrite(k, to, m) => ManagerWriteAccounts(cfg, g, strict, k, to, m);
    case Control(link, name, task) => ControlAccounts(cfg, g, strict, link, name, task);
    case Emit(k, m) => EmitAccounts(cfg, g, strict, k, m);
    case PlatformPipe(k, to, m) =>
      if IsRequest(m) {
        PipedRequest(cfg, g, strict, k, via, to, m);
      } else {
        PipedReply(cfg, g, strict, k, via, to, m);
      }
    case DevicesResponse(k, m) =>
      FromDeviceMoves(cfg, g, strict, k, m);
      LooseMoves(cfg, g, strict, p, ResponseFromDevice(g, k, m));
    case PlatformCall(_, _, _) =>
      if Dismisses(g, p, db) {
        DismissalAccounts(cfg, g, strict, p, db);
      } else {
        OthersAccount(cfg, g, strict, p, db, via);
      }
    case _ => OthersAccount(cfg, g, strict, p, db, via);
  }

  // ---------------------------------------------------------------- shapes outlive the other steps

  /** Ids are never given to somebody else. */
  predicate Grows(g: Registries, h: Registries) {
    forall id | id in g.roles :: id in h.roles && h.roles[id] == g.roles[id]
  }

  lemma TypedPersists(cfg: Config, g: Registries, h: Registries, p: Packet)
    requires Grows(g, h) && Typed(cfg, g, p)
    ensures Typed(cfg, h, p)
  {
    assert forall id: Id :: RoleOf(g, id).Some? ==> RoleOf(h, id) == RoleOf(g, id);
    hide Grows, RoleOf, UserFrame, UserRequest, ActionFrame, TransportOf, MetadataText;
  }

  lemma AllShapedPersists(cfg: Config, g: Registries, h: Registries, strict: bool, packets: seq<Packet>)
    requires Grows(g, h) && AllShaped(cfg, g, strict, packets)
    ensures AllShaped(cfg, h, strict, packets)
  {
    hide Typed, Grows, Bare;
    if strict {
      forall i | 0 <= i < |packets| ensures Typed(cfg, h, packets[i]) {
        assert Shape(cfg, g, strict, packets[i]);
        TypedPersists(cfg, g, h, packets[i]);
      }
    }
    assert forall i | 0 <= i < |packets| :: Shape(cfg, g, strict, packets[i]);
  }

  lemma CleanPersists(cfg: Config, g: Registries, h: Registries, frames: seq<Frame>)
    requires Grows(g, h) && CleanFrames(cfg, g, frames)
    ensures CleanFrames(cfg, h, frames)
  {
    forall i | 0 <= i < |frames| ensures CleanFrame(cfg, h, frames[i]) {
      assert CleanFrame(cfg, g, frames[i]);
    }
  }

  lemma SubscribersKeepOk(g: Registries, strict: bool, k: Key, device: Key, ids: seq<Id>)
    requires RegistriesOk(g, strict)
    requires strict ==> forall i | 0 <= i < |ids| :: HomeAtManager(g, k, ids[i])
    ensures RegistriesOk(g.(subscribers := g.subscribers[(k, device) := ids]), strict)
  {
    var h := g.(subscribers := g.subscribers[(k, device) := ids]);
    assert forall c: Id, o: Key :: HomeAtManager(g, o, c) ==> HomeAtManager(h, o, c);
  }

  lemma SubscriptionKeeps(g: Registries, strict: bool, k: Key, name: string, task: Task, db: Answer)
    requires RegistriesOk(g, strict) && (strict ==> HomeAtManager(g, k, task.transportId))
    ensures var h := UpdatedByManager(g, k, "subscriptions", name, task, db);
            && RegistriesOk(h, strict) && h.roles == g.roles && h.live == g.live && h.stored == g.stored
  {
    hide Param, GroupsOf, RoleOf, HomeAtManager;
    if Param(task.request, "device-key").Some? {
      var device := Param(task.request, "device-key").value;
      var ids := Subscribers(g, k, device);
      SubscribersKeepOk(g, strict, k, device, ids);
      if strict {
        WithoutIsPart(g, k, ids, task.transportId);
      }
      SubscribersKeepOk(g, strict, k, device, Without(ids, task.transportId));
      if task.transportId !in ids {
        SubscribersKeepOk(g, strict, k, device, ids + [task.transportId]);
      }
      hide RegistriesOk;
    }
  }

  /** With honest clients devices register in the steps for them only. */
  lemma CallsRegisterNoDevice(cfg: Config, g: Registries, k: Key, service: string, name: string, task: Task)
    requires Typed(cfg, g, Call(k, service, name, task))
    ensures service == "devices" ==> name != "connect" && name != "disconnect"
    ensures HomeAtManager(g, k, task.transportId)
  {
    hide UserRequest, HomeAtManager;
  }

  lemma ManagerUpdateKeeps(cfg: Config, g: Registries, strict: bool, k: Key, service: string, name: string, task: Task,
                           db: Answer)
    requires RegistriesOk(g, strict) && Shape(cfg, g, strict, Call(k, service, name, task))
    ensures var h := UpdatedByManager(g, k, service, name, task, db);
            && RegistriesOk(h, strict) && h.roles == g.roles && h.live == g.live && h.stored == g.stored
  {
    hide Typed, Param, AcceptsDevice, HomeAtManager;
    if strict {
      CallsRegisterNoDevice(cfg, g, k, service, name, task);
    }
    if service == "subscriptions" {
      hide UpdatedByManager, RegistriesOk;
      SubscriptionKeeps(g, strict, k, name, task, db);
    }
  }

  lemma {:induction false} WithoutIsPart(g: Registries, k: Key, ids: seq<Id>, id: Id)
    requires forall i | 0 <= i < |ids| :: HomeAtManager(g, k, ids[i])
    ensures forall i | 0 <= i < |Without(ids, id)| :: HomeAtManager(g, k, Without(ids, id)[i])
  {
    hide HomeAtManager;
    if ids != [] {
      WithoutIsPart(g, k, ids[1..], id);
    }
  }

  lemma LessLiveIsOk(g: Registries, strict: bool, live: set<Id>)
    requires RegistriesOk(g, strict) && live <= g.live
    ensures RegistriesOk(g.(live := live), strict)
  {
    var h := g.(live := live);
    assert forall id: Id :: RoleOf(h, id) == RoleOf(g, id);
    hide RoleOf;
  }

  lemma StatusIsOk(g: Registries, strict: bool, status: map<Id, bool>)
    requires RegistriesOk(g, strict)
    ensures RegistriesOk(g.(status := status), strict)
  {
    var h := g.(status := status);
    assert forall id: Id :: RoleOf(h, id) == RoleOf(g, id);
    hide RoleOf;
  }

  lemma UsersAreOk(g: Registries, strict: bool, users: set<(Key, string)>)
    requires RegistriesOk(g, strict)
    ensures RegistriesOk(g.(users := users), strict)
  {
    var h := g.(users := users);
    assert forall id: Id :: RoleOf(h, id) == RoleOf(g, id);
    hide RoleOf;
  }

  lemma ProfilesAreOk(g: Registries, strict: bool, profiles: set<string>)
    requires RegistriesOk(g, strict)
    ensures RegistriesOk(g.(profiles := profiles), strict)
  {
    var h := g.(profiles := profiles);
    assert forall id: Id :: RoleOf(h, id) == RoleOf(g, id);
    hide RoleOf;
  }

  lemma PlatformUpdateKeeps(cfg: Config, g: Registries, strict: bool, service: string, name: string, task: Task,
                            db: Answer)
    requires RegistriesOk(g, strict) && Shape(cfg, g, strict, PlatformCall(service, name, task))
    ensures var h := UpdatedByPlatform(g, service, name, task, db);
            RegistriesOk(h, strict) && h.roles == g.roles && h.live == g.live && h.stored == g.stored
  {
    hide Param, Readable;
    match Param(task.request, "key")
    case None =>
    case Some(key) =>
      hide RegistriesOk;
      ManagerLeavingIsOk(g, strict, key);
      if !strict {
        AnyManagerIsOk(g, key, task.transportId);
      }
  }

  lemma AnyManagerIsOk(g: Registries, key: Key, id: Id)
    requires RegistriesOk(g, false)
    ensures RegistriesOk(ManagerConnected(g, key, id), false)
  {
  }

  lemma UpdatedKeeps(cfg: Config, g: Registries, strict: bool, p: Packet, db: Answer)
    requires RegistriesOk(g, strict) && Shape(cfg, g, strict, p)
    ensures var h := Updated(g, p, db);
            RegistriesOk(h, strict) && h.roles == g.roles && h.live <= g.live && h.stored == g.stored
  {
    match p
    case Call(k, service, name, task) =>
      hide UpdatedByManager, RegistriesOk, Shape;
      ManagerUpdateKeeps(cfg, g, strict, k, service, name, task, db);
    case PlatformCall(service, name, task) =>
      hide UpdatedByPlatform, RegistriesOk, Shape;
      PlatformUpdateKeeps(cfg, g, strict, service, name, task, db);
    case ProfileAuth(task) =>
      hide RegistriesOk, Shape, Split;
      ProfilesAreOk(g, strict, ProfileCached(g, task, db).profiles);
    case UsersAuth(k, task) =>
      hide RegistriesOk, Shape, Split;
      UsersAreOk(g, strict, UserCached(g, k, task, db).users);
    case AtPlatformClient(k, _) =>
      hide RegistriesOk, Shape, ClosesManager;
      LessLiveIsOk(g, strict, LinkClosed(g, k).live);
    case AtDevice(link, m) =>
      hide RegistriesOk, Shape;
      LessLiveIsOk(g, strict, g.live - {link});
    case Control(link, name, _) =>
      hide RegistriesOk, Shape;
      StatusIsOk(g, strict, g.status[link := name == "on"]);
    case _ =>
  }

  lemma OpenedIsOk(g: Registries, strict: bool, id: Id, session: Session)
    requires RegistriesOk(g, strict) && id !in g.roles
    ensures RegistriesOk(Opened(g, id, session), strict) && Grows(g, Opened(g, id, session))
  {
    var h := Opened(g, id, session);
    assert forall c: Id :: RoleOf(g, c).Some? ==> RoleOf(h, c) == RoleOf(g, c);
    hide RoleOf;
  }

  lemma RemovedIsOk(g: Registries, strict: bool, id: Id)
    requires RegistriesOk(g, strict)
    ensures RegistriesOk(g.(live := g.live - {id}, stored := g.stored - {id}), strict)
  {
    var h := g.(live := g.live - {id}, stored := g.stored - {id});
    assert forall c: Id :: RoleOf(h, c) == RoleOf(g, c);
    hide RoleOf;
  }

  lemma ManagerRegistrationIsOk(g: Registries, strict: bool, k: Key, id: Id)
    requires RegistriesOk(g, strict) && SessionOf(g, id) == Some(ManagerLink(k))
    ensures RegistriesOk(ManagerConnected(g, k, id), strict)
  {
    var h := ManagerConnected(g, k, id);
    assert forall c: Id :: RoleOf(h, c) == RoleOf(g, c);
    assert RoleOf(g, id) == Some(ManagerLink(k));
    hide RoleOf, SessionOf;
  }

  lemma ManagerLeavingIsOk(g: Registries, strict: bool, k: Key)
    requires RegistriesOk(g, strict)
    ensures RegistriesOk(ManagerDisconnected(g, k), strict)
  {
    var h := ManagerDisconnected(g, k);
    assert forall c: Id :: RoleOf(h, c) == RoleOf(g, c);
    hide RoleOf;
  }

  lemma DeviceRegistrationIsOk(g: Registries, strict: bool, k: Key, device: Key, id: Id)
    requires RegistriesOk(g, strict) && SessionOf(g, id) == Some(DeviceLink(k, device))
    ensures RegistriesOk(DeviceConnected(g, k, device, id), strict)
  {
    var h := DeviceConnected(g, k, device, id);
    assert forall c: Id :: RoleOf(h, c) == RoleOf(g, c);
    assert RoleOf(g, id) == Some(DeviceLink(k, device));
    hide RoleOf, SessionOf;
  }

  lemma DeviceLeavingIsOk(g: Registries, strict: bool, k: Key, device: Key)
    requires RegistriesOk(g, strict)
    ensures RegistriesOk(DeviceDisconnected(g, k, device), strict)
  {
    var h := DeviceDisconnected(g, k, device);
    assert forall c: Id :: RoleOf(h, c) == RoleOf(g, c);
    hide RoleOf;
  }

  /** The steps that open, close, register and deregister. */
  lemma RegistryStepKeeps(cfg: Config, s: State, strict: bool, step: Step)
    requires RegistriesOk(s.g, strict) && !step.Deliver? && !step.ClientSends?
    ensures var t := Apply(cfg, s, step);
            && RegistriesOk(t.g, strict) && Grows(s.g, t.g) && t == s.(g := t.g)
  {
    hide RegistriesOk, Opened, SessionOf, Enabled, Handled, Arrived;
    match step
    case Open(id, session) =>
      if id !in s.g.roles {
        OpenedIsOk(s.g, strict, id, session);
      }
    case Close(id) => LessLiveIsOk(s.g, strict, s.g.live - {id});
    case Remove(id) => RemovedIsOk(s.g, strict, id);
    case RegisterManager(k, id) =>
      if SessionOf(s.g, id) == Some(ManagerLink(k)) {
        ManagerRegistrationIsOk(s.g, strict, k, id);
      }
    case DeregisterManager(k) => ManagerLeavingIsOk(s.g, strict, k);
    case RegisterDevice(k, device, id) =>
      if SessionOf(s.g, id) == Some(DeviceLink(k, device)) {
        DeviceRegistrationIsOk(s.g, strict, k, device, id);
      }
    case DeregisterDevice(k, device) => DeviceLeavingIsOk(s.g, strict, k, device);
    case Forget(k, key) => UsersAreOk(s.g, strict, s.g.users - {(k, key)});
  }

  // ---------------------------------------------------------------- every step

  lemma ArrivingIsShaped(cfg: Config, g: Registries, strict: bool, id: Id, m: Fields)
    requires strict ==> StrictFrame(cfg, g, id, m)
    ensures match SessionOf(g, id)
            case Some(Client) => Shape(cfg, g, strict, AtPlatform(id, m))
            case Some(LocalClient(k)) => Shape(cfg, g, strict, AtManager(k, id, m))
            case _ => true
  {
    hide UserRequest, ParseRequest;
  }

  lemma JoinsEither(a: multiset<Token>, b: multiset<Token>, c: multiset<Token>)
    ensures (a + c) + b == a + b + c && a + (b + c) == a + b + c
  {
  }

  lemma ArrivedKeepsInv(cfg: Config, s: State, strict: bool, id: Id, m: Fields)
    requires Inv(cfg, strict, s) && (strict ==> StrictFrame(cfg, s.g, id, m))
    ensures Inv(cfg, strict, Arrived(s, id, m))
  {
    ArrivingIsShaped(cfg, s.g, strict, id, m);
    hide Inv, Shape, StrictFrame, TokenAt, TokenInside, SessionOf, IsRequest;
    match SessionOf(s.g, id)
    case Some(Client) => ClientEnters(cfg, s, strict, id, m, AtPlatform(id, m));
    case Some(LocalClient(k)) => ClientEnters(cfg, s, strict, id, m, AtManager(k, id, m));
    case _ =>
  }

  lemma ClientEnters(cfg: Config, s: State, strict: bool, id: Id, m: Fields, p: Packet)
    requires Inv(cfg, strict, s) && Shape(cfg, s.g, strict, p)
    requires TokenOf(p) == if IsRequest(m) then TokenAt(id, m) else TokenInside(m)
    requires Arrived(s, id, m).flight == s.flight + [p] && SessionOf(s.g, id).Some?
    requires SessionOf(s.g, id).value.Client? || SessionOf(s.g, id).value.LocalClient?
    ensures Inv(cfg, strict, Arrived(s, id, m))
  {
    hide Inv, Shape, TokenAt, TokenInside, SessionOf, IsRequest, TokenOf;
    JoinsEither(s.received, s.forged, multiset(TokenOf(p)));
    EnteredKeepsInv(cfg, s, strict, p, Arrived(s, id, m));
  }

  /** A packet joins those in flight together with its token. */
  lemma EnteredKeepsInv(cfg: Config, s: State, strict: bool, p: Packet, t: State)
    requires Inv(cfg, strict, s) && Shape(cfg, s.g, strict, p)
    requires t == s.(flight := s.flight + [p], received := t.received, forged := t.forged)
    requires t.received + t.forged == s.received + s.forged + multiset(TokenOf(p))
    ensures Inv(cfg, strict, t)
  {
    hide Shape, TokenOf, TokensOf, AnswersOf, CleanFrames, RegistriesOk;
    TokensOfJoin(s.flight, [p]);
    TokensOfOne(p);
  }

  /** One packet leaves, others and some frames take its place, and the difference is dropped. */
  lemma BalanceKept(before: multiset<Token>, rest: multiset<Token>, token: multiset<Token>, entered: multiset<Token>,
                    answered: multiset<Token>, dropped: multiset<Token>, outs: multiset<Token>, frames: multiset<Token>)
    requires before == (rest + token) + answered + dropped && outs + frames <= token + entered
    ensures before + entered == (rest + outs) + (answered + frames) + (dropped + (token + entered - (outs + frames)))
  {
  }

  lemma HandledConserves(cfg: Config, s: State, at: nat, db: Answer, via: Id)
    requires at < |s.flight| && Conserved(s)
    requires Honest(s.g, s.flight[at], Outputs(cfg, s.g, s.flight[at], db, via))
    ensures Conserved(Handled(cfg, s, at, db, via))
  {
    hide TokensOf, AnswersOf, TokenOf, Outputs, Written, Updated, Entered;
    var p := s.flight[at];
    var outs, frames := Outputs(cfg, s.g, p, db, via), Written(s.g, p);
    TokensOfWithout(s.flight, at);
    TokensOfJoin(s.flight[..at] + s.flight[at + 1..], outs);
    AnswersOfJoin(s.written, frames);
    BalanceKept(s.received + s.forged, TokensOf(s.flight[..at] + s.flight[at + 1..]), multiset(TokenOf(p)),
                Entered(p, outs), AnswersOf(s.written), s.dropped, TokensOf(outs), AnswersOf(frames));
    var t := Handled(cfg, s, at, db, via);
    assert t.received + t.forged == (s.received + s.forged) + Entered(p, outs);
  }

  lemma AllShapedWithout(cfg: Config, g: Registries, strict: bool, packets: seq<Packet>, at: nat, outs: seq<Packet>)
    requires at < |packets| && AllShaped(cfg, g, strict, packets) && AllShaped(cfg, g, strict, outs)
    ensures AllShaped(cfg, g, strict, packets[..at] + packets[at + 1..] + outs)
  {
    hide Shape;
  }

  lemma HandledKeepsInv(cfg: Config, s: State, strict: bool, at: nat, db: Answer, via: Id)
    requires Inv(cfg, strict, s) && at < |s.flight|
    ensures Inv(cfg, strict, Handled(cfg, s, at, db, via))
  {
    var p := s.flight[at];
    var outs, h := Outputs(cfg, s.g, p, db, via), Updated(s.g, p, db);
    HandledAccounts(cfg, s.g, strict, p, db, via);
    UpdatedKeeps(cfg, s.g, strict, p, db);
    hide Shape, RegistriesOk, Outputs, Updated, Written, Conserved, TokensOf, AnswersOf, TokenOf, CleanFrame, Entered;
    HandledConserves(cfg, s, at, db, via);
    AllShapedWithout(cfg, s.g, strict, s.flight, at, outs);
    hide AllShaped, Honest;
    assert Grows(s.g, h);
    hide Grows;
    AllShapedPersists(cfg, s.g, h, strict, s.flight[..at] + s.flight[at + 1..] + outs);
    if strict {
      CleanPersists(cfg, s.g, h, s.written + Written(s.g, p));
    }
  }

  lemma StepKeepsInv(cfg: Config, strict: bool, s: State, step: Step)
    requires Inv(cfg, strict, s) && (strict ==> StrictStep(cfg, s, step))
    ensures Inv(cfg, strict, Apply(cfg, s, step))
  {
    hide AllShaped, RegistriesOk, CleanFrames, Handled, Arrived, StrictFrame, Enabled;
    match step
    case Deliver(at, db, via) =>
      if Enabled(s, step) {
        assert at < |s.flight| by { EnabledIsThere(s, step); }
        HandledKeepsInv(cfg, s, strict, at, db, via);
      }
    case ClientSends(id, m) => ArrivedKeepsInv(cfg, s, strict, id, m);
    case _ =>
      RegistryStepKeeps(cfg, s, strict, step);
      var t := Apply(cfg, s, step);
      hide Apply, Grows, TokensOf, AnswersOf;
      AllShapedPersists(cfg, s.g, t.g, strict, s.flight);
      if strict {
        CleanPersists(cfg, s.g, t.g, s.written);
      }
  }

  lemma EnabledIsThere(s: State, step: Step)
    requires Enabled(s, step)
    ensures step.Deliver? && step.at < |s.flight|
  {
  }

  /** Whoever sends what: each request received, or claimed by a response that a client sends, is in one
      packet or answered or dropped. If clients send well-typed requests only, every packet has the
      shape of its hop as well. */
  lemma {:induction false} RunKeepsInv(cfg: Config, strict: bool, s: State, steps: seq<Step>)
    requires Inv(cfg, strict, s) && (strict ==> StrictRun(cfg, s, steps))
    ensures Inv(cfg, strict, Run(cfg, s, steps))
    decreases |steps|
  {
    hide Inv, StrictStep, Apply;
    if steps != [] {
      var before, step := steps[..|steps| - 1], steps[|steps| - 1];
      RunKeepsInv(cfg, strict, s, before);
      StepKeepsInv(cfg, strict, Run(cfg, s, before), step);
    }
  }

  lemma InitialInv(cfg: Config, strict: bool)
    ensures Inv(cfg, strict, INITIAL)
  {
  }

  // ---------------------------------------------------------------- what follows for whole runs

  /** The answers written are for requests received on the same session and id, or claimed by a response
      frame that a client sent, each at most once. */
  lemma AnswersGoHome(cfg: Config, steps: seq<Step>)
    ensures var s := Run(cfg, INITIAL, steps);
            AnswersOf(s.written) <= s.received + s.forged
  {
    InitialInv(cfg, false);
    RunKeepsInv(cfg, false, INITIAL, steps);
    hide TokensOf, AnswersOf, Run, AllShaped, RegistriesOk;
  }

  /** When nothing is in flight, each of them has been answered exactly once or dropped. */
  lemma QuietMeansAnswered(cfg: Config, steps: seq<Step>)
    ensures var s := Run(cfg, INITIAL, steps);
            s.flight == [] ==> s.received + s.forged == AnswersOf(s.written) + s.dropped
  {
    InitialInv(cfg, false);
    RunKeepsInv(cfg, false, INITIAL, steps);
    hide AnswersOf, Run, AllShaped, RegistriesOk;
  }

  lemma {:induction false} AnswerCounts(frames: seq<Frame>, i: nat)
    requires i < |frames| && IsResponse(frames[i].message)
    ensures (frames[i].to, frames[i].message["id"]) in AnswersOf(frames)
  {
    var token := (frames[i].to, frames[i].message["id"]);
    if i == 0 {
      assert AnswerOf(frames[0]) == [token];
      hide AnswerOf;
      assert multiset([token])[token] == 1;
    } else {
      AnswerCounts(frames[1..], i - 1);
      hide AnswerOf, IsResponse;
    }
  }

  /** The same for one frame: a response to client `c` has the id of a request that `c` sent. */
  lemma AnswerIsForItsClient(cfg: Config, steps: seq<Step>, i: nat)
    requires i < |Run(cfg, INITIAL, steps).written| && IsResponse(Run(cfg, INITIAL, steps).written[i].message)
    ensures var s := Run(cfg, INITIAL, steps);
            var f := s.written[i];
            (f.to, f.message["id"]) in s.received + s.forged
  {
    AnswersGoHome(cfg, steps);
    AnswerCounts(Run(cfg, INITIAL, steps).written, i);
  }
}
