/** Which requests of clients make the platform end a manager's connection. */
module RelayDismissal {
  import opened JsonValue
  import opened JsonRpc
  import opened Options
  import opened Relay
  import opened RelayRun
  import opened RelayShape
  import opened RelayMessages
  import opened RelayInside

  /** The manager that a request asks to delete, unless the platform refuses it before it gets that far. */
  function DeletedBy(r: Request): Option<Key> {
    var parts := Split(r.method_);
    if "manager-key" !in r.metadata && "profile-key" in r.metadata && |parts| > 1 then
      NamedKey(parts[0], parts[1], r)
    else None
  }

  function NamedKey(service: string, name: string, r: Request): Option<Key> {
    if service == "managers" && name == "delete" && Param(r, "key") != Some("") then Param(r, "key") else None
  }

  function DeletedOf(p: Packet): Option<Key> {
    match p
    case AtPlatform(_, m) => if IsRequest(m) && ParseRequest(m).Parsed? then DeletedBy(ParseRequest(m).value) else None
    case ProfileAuth(task) => DeletedBy(task.request)
    case PlatformService(task) => DeletedBy(task.request)
    case PlatformCall(service, name, task) => NamedKey(service, name, task.request)
    case _ => None
  }

  /** The manager that a client of the platform asks to delete in this step. */
  function DeletedIn(g: Registries, step: Step): Option<Key> {
    if step.ClientSends? && SessionOf(g, step.id) == Some(Client) then DeletedOf(AtPlatform(step.id, step.message))
    else None
  }

  lemma ArrivesWith(s: State, id: Id, m: Fields)
    ensures var t := Arrived(s, id, m);
            t.flight == s.flight ||
            (t.flight == s.flight + [t.flight[|s.flight|]] &&
             DeletedOf(t.flight[|s.flight|]) == DeletedIn(s.g, ClientSends(id, m)))
  {
    hide TokenAt, TokenInside, DeletedBy;
  }

  /** A request that strays from a manager deletes nothing. */
  lemma ActionDeletesNothing(from: Id, m: Fields)
    requires ActionFrame(m)
    ensures DeletedOf(AtPlatform(from, m)) == None
  {
    hide ParseRequest, Split;
  }

  /** A request that reaches the handlers deletes what it deleted before. */
  lemma EnteredDeletes(from: Id, m: Fields)
    ensures forall q | q in PlatformDispatcher(from, m) ::
              DeletedOf(q).None? || DeletedOf(q) == DeletedOf(AtPlatform(from, m))
  {
    hide ParseRequest, Split, SerializeResponse, Param;
    PlatformGuestMethods();
  }

  lemma AuthenticatedDeletes(g: Registries, task: Task, db: Answer)
    ensures forall q | q in AuthenticateProfile(g, task, db) ::
              DeletedOf(q).None? || DeletedOf(q) == DeletedBy(task.request)
  {
    hide Split, SerializeResponse, DeletedBy;
  }

  lemma RoutedDeletes(g: Registries, task: Task)
    requires ProfileTask(g, task)
    ensures forall q | q in RouteOnPlatform(task) :: DeletedOf(q).None? || DeletedOf(q) == DeletedBy(task.request)
  {
    hide Split, SerializeResponse, Param, Readable;
  }

  /** A manager stays registered unless it is deleted. */
  lemma HandledKeepsManager(cfg: Config, g: Registries, k: Key, p: Packet, db: Answer)
    requires Typed(cfg, g, p) && DeletedOf(p) != Some(k) && k in g.managers
    ensures var h := Updated(g, p, db); k in h.managers && h.managers[k] == g.managers[k]
  {
    hide UserRequest, ParseRequest, Param, AcceptsDevice, GroupsOf, HomeAtManager, CallFits, TaskOk, Without, Readable,
         AllText;
  }

  /** Only the handlers of the platform, and the pipe to it, send what might delete. */
  lemma PipedDeletesNothing(cfg: Config, g: Registries, p: Packet, via: Id, metadata: Fields)
    requires p.PlatformPipe? && Typed(cfg, g, p)
    requires "metadata" in p.message ==> p.message["metadata"].Obj?
    requires metadata.Keys <=
             (if "metadata" in p.message then p.message["metadata"].fields.Keys else {}) + {"transport"}
    ensures DeletedOf(AtPlatform(via, p.message["metadata" := Obj(metadata)])) == None
  {
    hide ReplyOrNotify, ParseRequest, DeletedBy;
    MarkedFrame(p.message, metadata);
    if IsRequest(p.message) {
      ReadMetadata(p.message);
      MarkedRequest(p.message, metadata);
      ActionDeletesNothing(via, p.message["metadata" := Obj(metadata)]);
    }
  }

  lemma PipeDeletesNothing(cfg: Config, g: Registries, p: Packet, via: Id)
    requires p.PlatformPipe? && Typed(cfg, g, p)
    ensures forall q | q in ToPlatform(g, p.manager, via, p.to, p.message) :: DeletedOf(q).None?
  {
    hide Typed, DeletedOf;
    if ToPlatform(g, p.manager, via, p.to, p.message) != [] {
      var m := p.message;
      var given := if "metadata" in m then m["metadata"].fields else map[];
      var metadata := if Contains(m, "transport") then given else given["transport" := Str(p.to)];
      PipedDeletesNothing(cfg, g, p, via, metadata);
    }
  }

  lemma InsideDeletesNothing(k: Key, outs: seq<Packet>)
    requires AllInside(k, outs)
    ensures forall q | q in outs :: DeletedOf(q).None?
  {
    forall q | q in outs ensures DeletedOf(q).None? {
      assert Inside(k, q);
    }
  }

  lemma {:induction false} CopiesDeleteNothing(k: Key, m: Fields, ids: seq<Id>)
    requires "metadata" in m && m["metadata"].Obj?
    ensures forall q | q in Copies(k, m, ids) :: DeletedOf(q).None?
  {
    if ids != [] {
      CopiesDeleteNothing(k, m, ids[1..]);
    }
  }

  lemma CalledDeletesNothing(g: Registries, p: Packet, db: Answer)
    requires p.Call?
    ensures forall q | q in Serve(g, p.manager, p.service, p.method_, p.task, db) :: DeletedOf(q).None?
  {
    hide AllInside;
    if p.service == "devices" && p.method_ == "request" {
      hide SerializeRequest, SerializeResponse;
    } else {
      hide Serve;
      ServedIsInside(g, p.manager, p.service, p.method_, p.task, db);
      InsideDeletesNothing(p.manager, Serve(g, p.manager, p.service, p.method_, p.task, db));
    }
  }

  /** What a handler sends deletes no other manager than its packet. */
  lemma HandledDeletes(cfg: Config, g: Registries, p: Packet, db: Answer, via: Id)
    requires Typed(cfg, g, p)
    ensures forall q | q in Outputs(cfg, g, p, db, via) :: DeletedOf(q).None? || DeletedOf(q) == DeletedOf(p)
  {
    if p.AtPlatform? {
      hide PlatformDispatcher, DeletedOf, Typed;
      EnteredDeletes(p.from, p.message);
    } else if p.ProfileAuth? {
      hide AuthenticateProfile, DeletedBy, Typed;
      AuthenticatedDeletes(g, p.task, db);
    } else if p.PlatformService? {
      hide RouteOnPlatform, DeletedBy, ProfileTask;
      RoutedDeletes(g, p.task);
    } else if p.PlatformPipe? {
      hide ToPlatform, DeletedOf, Typed;
      PipeDeletesNothing(cfg, g, p, via);
    } else if p.Call? {
      hide Serve, DeletedOf, Typed;
      CalledDeletesNothing(g, p, db);
    } else {
      OthersDeleteNothing(cfg, g, p, db, via);
    }
  }

  lemma OthersDeleteNothing(cfg: Config, g: Registries, p: Packet, db: Answer, via: Id)
    requires !p.AtPlatform? && !p.ProfileAuth? && !p.PlatformService? && !p.PlatformPipe? && !p.Call?
    requires p.PlatformCall? ==> Answers(p.service, p.method_)
    ensures forall q | q in Outputs(cfg, g, p, db, via) :: DeletedOf(q).None?
  {
    hide ParseRequest, Split, SerializeResponse, SerializeRequest, SerializeNotify, Readable, Param, TransportOf,
         DeletedBy, NamedKey, Copies, Serve, IsLocal, SessionOf;
    if p.Emit? && MetadataText(p.message, "device-key").Some? {
      var device := MetadataText(p.message, "device-key").value;
      if (p.manager, device) in g.subscribers {
        CopiesDeleteNothing(p.manager, p.message, g.subscribers[(p.manager, device)]);
      }
    }
  }
}
