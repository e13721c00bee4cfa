/** The services of the relay that keep state, with their registries updated in place. Each handler is a step
    of the relay: it puts in flight what the machine puts there for its packet, and its registry stays a
    part of the registries of the machine. What carries the classes are the handlers that change a registry
    or loop over it; those that only look something up there say that they look where the machine does. */
module RelayServices {
  import opened JsonValue
  import opened JsonRpc
  import opened Options
  import opened Relay
  import opened RelayRun
  import opened Sessions

  /** `out` is what the machine puts in flight when it handles `p`. */
  ghost predicate Does(g: Registries, p: Packet, db: Answer, out: seq<Packet>) {
    forall cfg: Config, via: Id :: Outputs(cfg, g, p, db, via) == out
  }

  /** `managers` of the platform. */
  class Managers {
    var managersReg: map<Key, Id>

    ghost predicate Agrees(g: Registries)
      reads this
    {
      managersReg == g.managers
    }

    constructor ()
      ensures Agrees(INITIAL.g)
    {
      managersReg := map[];
    }

    /** `connect`: `emplace` keeps the session of a manager that is registered already, and the answer
        is the same. */
    method Connect(ghost g: Registries, task: Task, db: Answer) returns (out: seq<Packet>)
      requires Agrees(g)
      modifies this
      ensures Does(g, PlatformCall("managers", "connect", task), db, out)
      ensures Agrees(Updated(g, PlatformCall("managers", "connect", task), db))
    {
      var key := Param(task.request, "key");
      if key.None? {
        return [];
      }
      var error: Option<RpcError>, result := None, Null;
      if db.Failed? {
        error := Some(RpcError(UNKNOWN_ERROR_CODE, db.what, Null));
      } else if db.count > 0 {
        result := Bool(true);
        if key.value !in managersReg {
          managersReg := managersReg[key.value := task.transportId];
        }
      } else {
        error := Some(RpcError(UNKNOWN_ERROR_CODE, "manager not found", Null));
      }
      var message := SerializeResponse(JsonRpc.Response(task.request.id, result, map[], error));
      out := [PlatformWrite(task.transportId, message)];
    }

    /** `delete`: a registered manager is asked to disconnect before it is erased, and the client is answered
        last. */
    method Delete(ghost g: Registries, task: Task, db: Answer) returns (out: seq<Packet>)
      requires Agrees(g)
      modifies this
      ensures Does(g, PlatformCall("managers", "delete", task), db, out)
      ensures Agrees(Updated(g, PlatformCall("managers", "delete", task), db))
    {
      hide SerializeResponse, SerializeRequest;
      assert TextParams("managers", "delete") == {"key"};
      var key := Param(task.request, "key");
      out := [];
      if key.None? {
        return;
      }
      var error: Option<RpcError>, result := None, Null;
      if key.value == "" {
        error := Some(RpcError(UNKNOWN_ERROR_CODE, "key manager empty", Null));
      } else if db.Failed? {
        error := Some(RpcError(UNKNOWN_ERROR_CODE, db.what, Null));
      } else {
        result := Bool(true);
        if key.value in managersReg {
          var message := JsonRpc.Request(task.request.id, "disconnect", Null, map[]);
          out := out + [PlatformWrite(managersReg[key.value], SerializeRequest(message))];
        }
        managersReg := managersReg - {key.value};
      }
      var answer := SerializeResponse(JsonRpc.Response(task.request.id, result, map[], error));
      out := out + [PlatformWrite(task.transportId, answer)];
    }

    /** `disconnect` answers nothing. */
    method Disconnect(ghost g: Registries, task: Task, ghost db: Answer) returns (out: seq<Packet>)
      requires Agrees(g)
      modifies this
      ensures Does(g, PlatformCall("managers", "disconnect", task), db, out)
      ensures Agrees(Updated(g, PlatformCall("managers", "disconnect", task), db))
    {
      out := [];
      var key := Param(task.request, "key");
      if key.Some? {
        managersReg := managersReg - {key.value};
      }
    }

    /** `request`. */
    method Request(ghost g: Registries, task: Task, ghost db: Answer) returns (out: seq<Packet>)
      requires Agrees(g)
      ensures Does(g, ManagersRequest(task), db, out)
    {
      var key := TextAt(task.request.metadata, "manager-key");
      if key.None? {
        return [];
      }
      if key.value in managersReg {
        var metadata := task.request.metadata;
        metadata := metadata["transport" := Str(task.transportId)];
        out := [PlatformWrite(managersReg[key.value], SerializeRequest(task.request.(metadata := metadata)))];
      } else {
        out := [PlatformWrite(task.transportId, ErrorMessage(task.request.id, "manager not connection"))];
      }
    }
  }

  /** `devices` of a manager. */
  class Devices {
    const manager: Key
    var devicesReg: map<Key, Id>
    var deviceActionsReg: map<Key, set<string>>
    var deviceVariablesReg: map<Key, set<string>>

    /** The registry is a part of all registries of the relay, and the three know the same devices. */
    ghost predicate Agrees(g: Registries)
      reads this
    {
      && devicesReg.Keys == deviceActionsReg.Keys == deviceVariablesReg.Keys
      && forall d: Key :: ((manager, d) in g.devices <==> d in devicesReg) &&
                          (d in devicesReg ==> g.devices[(manager, d)] == devicesReg[d])
    }

    constructor (manager: Key)
      ensures Agrees(INITIAL.g) && this.manager == manager
    {
      this.manager := manager;
      devicesReg, deviceActionsReg, deviceVariablesReg := map[], map[], map[];
    }

    /** `add_reg_device`: three times `emplace`, which keeps what is there. */
    method AddRegDevice(ghost g: Registries, key: Key, id: Id, actions: set<string>, variables: set<string>)
      requires Agrees(g)
      modifies this
      ensures Agrees(DeviceConnected(g, manager, key, id))
      ensures key in old(devicesReg) ==>
                deviceActionsReg == old(deviceActionsReg) && deviceVariablesReg == old(deviceVariablesReg)
      ensures key !in old(devicesReg) ==>
                && deviceActionsReg == old(deviceActionsReg)[key := actions]
                && deviceVariablesReg == old(deviceVariablesReg)[key := variables]
    {
      if key !in devicesReg {
        devicesReg := devicesReg[key := id];
      }
      if key !in deviceActionsReg {
        deviceActionsReg := deviceActionsReg[key := actions];
      }
      if key !in deviceVariablesReg {
        deviceVariablesReg := deviceVariablesReg[key := variables];
      }
    }

    /** The loops over actions and variables, which end at the first item that is no text. */
    static method Texts(items: seq<Value>) returns (texts: Option<set<string>>)
      ensures texts.Some? <==> AllText(items)
      ensures texts.Some? ==> texts.value == set v | v in items && v.Str? :: v.s
    {
      var found: set<string> := {};
      for i := 0 to |items|
        invariant AllText(items[..i]) && found == set v | v in items[..i] && v.Str? :: v.s
      {
        assert items[..i + 1] == items[..i] + [items[i]];
        if !items[i].Str? {
          return None;
        }
        found := found + {items[i].s};
      }
      assert items[..|items|] == items;
      texts := Some(found);
    }

    /** `connect`: a device is registered only with a successful answer, and nothing is registered when an
        action or a variable is no text. */
    method Connect(ghost g: Registries, task: Task, db: Answer) returns (out: seq<Packet>)
      requires Agrees(g)
      modifies this
      ensures Does(g, Call(manager, "devices", "connect", task), db, out)
      ensures Agrees(Updated(g, Call(manager, "devices", "connect", task), db))
    {
      hide Reply, Refuse, Param, ParamItems, SerializeResponse, AllText;
      var key := Param(task.request, "key");
      var actions, variables := ParamItems(task.request, "actions"), ParamItems(task.request, "variables");
      if key.None? || actions.None? || variables.None? {
        return [];
      }
      if db.Failed? {
        out := Refuse(manager, task, db.what);
      } else if db.count > 0 {
        if actions.value != [] || variables.value != [] {
          var result := Bool(true);
          var deviceActions := Texts(actions.value);
          var deviceVariables := Texts(variables.value);
          if deviceActions.Some? && deviceVariables.Some? {
            AddRegDevice(g, key.value, task.transportId, deviceActions.value, deviceVariables.value);
            out := Reply(manager, task, result);
          } else {
            var error := RpcError(UNKNOWN_ERROR_CODE, BAD_GET, Null);
            var message := SerializeResponse(JsonRpc.Response(task.request.id, result, map[], Some(error)));
            out := [ManagerWrite(manager, task.transportId, message)];
          }
        } else {
          out := Refuse(manager, task, "device control contains actions and/or variables");
        }
      } else {
        out := Refuse(manager, task, "device not found");
      }
    }

    /** `disconnect` answers nothing. */
    method Disconnect(ghost g: Registries, task: Task, ghost db: Answer) returns (out: seq<Packet>)
      requires Agrees(g)
      modifies this
      ensures Does(g, Call(manager, "devices", "disconnect", task), db, out)
      ensures Agrees(Updated(g, Call(manager, "devices", "disconnect", task), db))
    {
      out := [];
      var key := Param(task.request, "key");
      if key.Some? {
        devicesReg := devicesReg - {key.value};
        deviceActionsReg := deviceActionsReg - {key.value};
        deviceVariablesReg := deviceVariablesReg - {key.value};
      }
    }

    /** `request`. */
    method Request(ghost g: Registries, task: Task, ghost db: Answer) returns (out: seq<Packet>)
      requires Agrees(g)
      ensures Does(g, Call(manager, "devices", "request", task), db, out)
    {
      hide Refuse, SerializeRequest;
      var device := TextAt(task.request.metadata, "device-key");
      if device.None? {
        return [];
      }
      if device.value in devicesReg {
        var action := Param(task.request, "action");
        if action.None? {
          return [];
        }
        var message := JsonRpc.Request(task.request.id, action.value, Null, map["transport" := Str(task.transportId)]);
        out := [ManagerWrite(manager, devicesReg[device.value], SerializeRequest(message))];
      } else {
        out := Refuse(manager, task, "device not connected");
      }
    }

    /** `response`. */
    method Response(ghost g: Registries, body: Fields, ghost db: Answer) returns (out: seq<Packet>)
      requires Agrees(g)
      ensures Does(g, DevicesResponse(manager, body), db, out)
    {
      var message := body;
      out := [];
      if IsResponse(message) {
        var to, device := TransportOf(message), MetadataText(message, "device-key");
        if to.Some? && device.Some? && device.value in devicesReg {
          message := message - {"metadata"};
          out := [ManagerWrite(manager, to.value, message)];
        }
      }
    }

    /** `notify`. */
    method Notify(ghost g: Registries, body: Fields, ghost db: Answer) returns (out: seq<Packet>)
      requires Agrees(g)
      ensures Does(g, DevicesNotify(manager, body), db, out)
    {
      out := [];
      if IsNotify(body) {
        var device := MetadataText(body, "device-key");
        if device.Some? && device.value in devicesReg {
          out := [Relay.Emit(manager, body)];
        }
      }
    }
  }

  /** `subscriptions` of a manager: who listens to a device. */
  class Subscriptions {
    const manager: Key
    var registered: map<Key, seq<Id>>

    ghost predicate Agrees(g: Registries)
      reads this
    {
      forall d: Key :: ((manager, d) in g.subscribers <==> d in registered) &&
                       (d in registered ==> g.subscribers[(manager, d)] == registered[d])
    }

    constructor (manager: Key)
      ensures Agrees(INITIAL.g) && this.manager == manager
    {
      this.manager := manager;
      registered := map[];
    }

    /** `on`. */
    method On(ghost g: Registries, task: Task, db: Answer) returns (out: seq<Packet>)
      requires Agrees(g)
      modifies this
      ensures Does(g, Call(manager, "subscriptions", "on", task), db, out)
      ensures Agrees(Updated(g, Call(manager, "subscriptions", "on", task), db))
    {
      hide Refuse, Reply, Updated, GroupsOf, Param, Stored, AllText;
      OnSubscribes(g, manager, task, db);
      if GroupsOf(task).None? || Param(task.request, "device-key").None? {
        return [];
      }
      var device := Param(task.request, "device-key").value;
      if GroupsOf(task).value == [] {
        return Refuse(manager, task, "device-groups empty");
      }
      var groups := Devices.Texts(GroupsOf(task).value);
      if groups.None? {
        return Refuse(manager, task, BAD_GET);
      }
      if db.Failed? {
        return Refuse(manager, task, db.what);
      }
      if db.rows == [] && Stored(task, "user.admin") == "0" {
        return Refuse(manager, task, "access denied to device");
      }
      var added := AddListener(device, task.transportId);
      out := if added then Reply(manager, task, Bool(true)) else Refuse(manager, task, "subscriptions already");
    }

    /** A listener is entered once. */
    method AddListener(device: Key, id: Id) returns (added: bool)
      modifies this
      ensures var ids := if device in old(registered) then old(registered)[device] else [];
              && registered == old(registered)[device := if id in ids then ids else ids + [id]]
              && added == (id !in ids)
    {
      if device !in registered {
        registered := registered[device := []];
      }
      added := id !in registered[device];
      if added {
        registered := registered[device := registered[device] + [id]];
      }
    }

    /** `off`: a result is set even when there was no such listener. */
    method Off(ghost g: Registries, task: Task, db: Answer) returns (out: seq<Packet>)
      requires Agrees(g)
      modifies this
      ensures Does(g, Call(manager, "subscriptions", "off", task), db, out)
      ensures Agrees(Updated(g, Call(manager, "subscriptions", "off", task), db))
    {
      hide Updated, SerializeResponse, Refuse;
      OffUnsubscribes(g, manager, task, db);
      if Param(task.request, "device-key").None? {
        return [];
      }
      var device := Param(task.request, "device-key").value;
      if device !in registered {
        return Refuse(manager, task, "device is not connect");
      }
      var error: Option<RpcError> := None;
      if task.transportId in registered[device] {
        var rest := Erase(registered[device], task.transportId);
        registered := registered[device := rest];
      } else {
        error := Some(RpcError(UNKNOWN_ERROR_CODE, "unsubscribe already", Null));
        EraseNothing(registered[device], task.transportId);
      }
      var message := SerializeResponse(JsonRpc.Response(task.request.id, Bool(true), map[], error));
      out := [ManagerWrite(manager, task.transportId, message)];
    }

    method Erase(ids: seq<Id>, id: Id) returns (rest: seq<Id>)
      ensures rest == Without(ids, id)
    {
      rest := [];
      var i := |ids|;
      while i > 0
        invariant 0 <= i <= |ids|
        invariant rest == Without(ids[i..], id)
      {
        i := i - 1;
        assert ids[i..][1..] == ids[i + 1..];
        if ids[i] != id {
          rest := [ids[i]] + rest;
        }
      }
      assert ids[0..] == ids;
    }

    /** `emit`: the same map is marked anew for each listener before it is written. */
    method Emit(ghost g: Registries, body: Fields, ghost db: Answer) returns (out: seq<Packet>)
      requires Agrees(g)
      ensures Does(g, Relay.Emit(manager, body), db, out)
    {
      out := [];
      var message := body;
      var device := MetadataText(message, "device-key");
      if device.None? || device.value !in registered {
        return;
      }
      var ids := registered[device.value];
      for i := 0 to |ids|
        invariant message == if i == 0 then body else Marked(body, ids[i - 1])
        invariant out == Copies(manager, body, ids[..i])
      {
        if i > 0 {
          MarkedAgain(body, ids[i - 1], ids[i]);
        }
        message := Marked(message, ids[i]);
        out := out + [ManagerWrite(manager, ids[i], message)];
        CopiesGrow(manager, body, ids[..i], ids[i]);
        assert ids[..i + 1] == ids[..i] + [ids[i]];
      }
      assert ids[..|ids|] == ids;
    }
  }

  /** `message["metadata"]["transport"] = id`. */
  function Marked(m: Fields, id: Id): (t: Fields)
    requires "metadata" in m && m["metadata"].Obj?
    ensures "metadata" in t && t["metadata"].Obj?
  {
    m["metadata" := Obj(m["metadata"].fields["transport" := Str(id)])]
  }

  lemma MarkedAgain(m: Fields, a: Id, b: Id)
    requires "metadata" in m && m["metadata"].Obj?
    ensures Marked(Marked(m, a), b) == Marked(m, b)
  {
    var metadata := m["metadata"].fields;
    assert metadata["transport" := Str(a)]["transport" := Str(b)] == metadata["transport" := Str(b)];
  }

  lemma {:induction false} CopiesGrow(k: Key, m: Fields, ids: seq<Id>, id: Id)
    requires "metadata" in m && m["metadata"].Obj?
    ensures Copies(k, m, ids + [id])
         == Copies(k, m, ids) + [ManagerWrite(k, id, Marked(m, id))]
  {
    if ids != [] {
      CopiesGrow(k, m, ids[1..], id);
      assert (ids + [id])[1..] == ids[1..] + [id];
    }
  }

  lemma OnSubscribes(g: Registries, k: Key, task: Task, db: Answer)
    ensures Updated(g, Call(k, "subscriptions", "on", task), db) ==
            if Param(task.request, "device-key").None? then g
            else Subscribe(g, k, Param(task.request, "device-key").value, task, db)
  {
  }

  lemma OffUnsubscribes(g: Registries, k: Key, task: Task, db: Answer)
    ensures Updated(g, Call(k, "subscriptions", "off", task), db) ==
            if Param(task.request, "device-key").None? then g
            else Unsubscribe(g, k, Param(task.request, "device-key").value, task)
  {
  }

  lemma {:induction false} EraseNothing(ids: seq<Id>, id: Id)
    requires id !in ids
    ensures Without(ids, id) == ids
  {
    if ids != [] {
      EraseNothing(ids[1..], id);
      assert ids == [ids[0]] + ids[1..];
    }
  }

  /** `control` of a device, which is connected as `link`. */
  class ControlService {
    const link: Id
    var status: bool

    ghost predicate Agrees(g: Registries)
      reads this
    {
      status == (link in g.status && g.status[link])
    }

    constructor (link: Id)
      ensures Agrees(INITIAL.g) && this.link == link
    {
      this.link, status := link, false;
    }

    /** `on`, `off` and `status`. */
    method Handle(ghost g: Registries, name: string, task: Task, ghost db: Answer) returns (out: seq<Packet>)
      requires name in CONTROLS && Agrees(g)
      modifies this
      ensures Does(g, Control(link, name, task), db, out)
      ensures Agrees(Updated(g, Control(link, name, task), db))
    {
      hide SerializeResponse, SerializeNotify;
      if name == "status" {
        out := [DeviceWrite(link, task.transportId, ResultMessage(task.request.id, Bool(status)))];
      } else {
        status := name == "on";
        out := [DeviceWrite(link, task.transportId, ResultMessage(task.request.id, Bool(true)))];
        var notify := JsonRpc.Notify("control.status", Bool(status), map[]);
        out := out + [DeviceWrite(link, task.transportId, SerializeNotify(notify))];
      }
    }
  }

  /** `ws_listener` of a manager: the sessions it accepted, and the actors that get what is for none of
      them. */
  class WsListener {
    const manager: Key
    var storageSessions: map<Id, WsSession>
    const pipes: seq<string>

    /** The listener stores the sessions of this manager that the machine has stored. */
    ghost predicate Agrees(g: Registries)
      reads this
    {
      forall id: Id :: id in storageSessions <==> id in g.stored && IsLocal(g, manager, id)
    }

    constructor (manager: Key, pipes: seq<string>)
      ensures Agrees(INITIAL.g) && this.manager == manager && this.pipes == pipes
    {
      this.manager, this.pipes := manager, pipes;
      storageSessions := map[];
    }

    /** `on_accept`, of a client or a device; ids are times and not given twice. */
    method Accept(ghost g: Registries, id: Id, ghost session: Session)
      requires Agrees(g) && id !in g.roles
      requires session == LocalClient(manager) || (session.DeviceLink? && session.manager == manager)
      modifies this
      ensures Agrees(Opened(g, id, session))
      ensures storageSessions.Keys == old(storageSessions).Keys + {id}
    {
      var accepted := new WsSession();
      storageSessions := storageSessions[id := accepted];
    }

    /** `write`: a frame is posted to the session that is stored for it, or else goes to every pipe, as the
        machine forwards it. */
    method Write(ghost g: Registries, id: Id, ghost message: Fields, body: string)
      returns (forwarded: seq<(string, Id, string)>)
      requires Agrees(g)
      requires id in storageSessions ==> storageSessions[id].Valid()
      modifies if id in storageSessions then {storageSessions[id]} else {}
      ensures WriteAtManager(g, manager, id, message) == [PlatformPipe(manager, id, message)] ==>
                |forwarded| == |pipes| && forall i | 0 <= i < |pipes| :: forwarded[i] == (pipes[i], id, body)
      ensures WriteAtManager(g, manager, id, message) != [PlatformPipe(manager, id, message)] ==>
                && forwarded == [] && id in storageSessions && storageSessions[id].Valid()
                && storageSessions[id].posted == old(storageSessions[id].posted) + [body]
    {
      forwarded := [];
      if id in storageSessions {
        storageSessions[id].Write(body);
      } else {
        for i := 0 to |pipes|
          invariant |forwarded| == i && forall j | 0 <= j < i :: forwarded[j] == (pipes[j], id, body)
        {
          forwarded := forwarded + [(pipes[i], id, body)];
        }
      }
    }

    /** `remove`. */
    method Remove(ghost g: Registries, id: Id)
      requires Agrees(g)
      modifies this
      ensures Agrees(g.(live := g.live - {id}, stored := g.stored - {id}))
    {
      storageSessions := storageSessions - {id};
    }
  }
}
