/** Where the handlers inside a manager send: to each other, and answers to whoever asked. Only
    `devices.request` makes a request of its own. */
module RelayInside {
  import opened JsonValue
  import opened JsonRpc
  import opened Options
  import opened Relay
  import opened RelayMessages

  /** From handler to handler. */
  predicate Inner(k: Key, q: Packet) {
    (q.UsersAuth? || q.Service? || q.Call?) && q.manager == k
  }

  predicate Inside(k: Key, q: Packet) {
    Inner(k, q) || (q.ManagerWrite? && q.manager == k && !IsRequest(q.message))
  }

  predicate AllInside(k: Key, outs: seq<Packet>) {
    forall i | 0 <= i < |outs| :: Inside(k, outs[i])
  }

  lemma RefusalIsInside(k: Key, task: Task, text: string)
    ensures AllInside(k, Refuse(k, task, text))
  {
    hide SerializeResponse;
    ReplyFrame(task.request.id, Null, Some(RpcError(UNKNOWN_ERROR_CODE, text, Null)));
  }

  lemma ReplyIsInside(k: Key, task: Task, result: Value)
    ensures AllInside(k, Reply(k, task, result))
  {
    hide SerializeResponse;
    ReplyFrame(task.request.id, result, None);
  }

  lemma WithGroupsIsInside(k: Key, task: Task, db: Answer, next: string)
    ensures AllInside(k, WithGroups(k, task, db, next))
  {
    hide Refuse;
    RefusalIsInside(k, task, if db.Failed? then db.what else "device groups empty");
  }

  lemma CheckAccessIsInside(k: Key, task: Task, db: Answer)
    ensures AllInside(k, CheckAccess(k, task, db))
  {
    hide Refuse;
    RefusalIsInside(k, task, "device-groups empty");
    RefusalIsInside(k, task, BAD_GET);
    RefusalIsInside(k, task, if db.Failed? then db.what else "access denied to device");
  }

  lemma OnIsInside(g: Registries, k: Key, task: Task, db: Answer)
    ensures AllInside(k, AnswerOn(g, k, task, db))
  {
    hide Refuse, Reply, GroupsOf;
    RefusalIsInside(k, task, "device-groups empty");
    RefusalIsInside(k, task, if db.Failed? then db.what else "access denied to device");
    RefusalIsInside(k, task, "subscriptions already");
    RefusalIsInside(k, task, BAD_GET);
    ReplyIsInside(k, task, Bool(true));
  }

  lemma OffIsInside(g: Registries, k: Key, task: Task)
    ensures AllInside(k, AnswerOff(g, k, task))
  {
    hide Refuse, Reply, SerializeResponse;
    RefusalIsInside(k, task, "device is not connect");
    ReplyIsInside(k, task, Bool(true));
    ReplyFrame(task.request.id, Bool(true), Some(RpcError(UNKNOWN_ERROR_CODE, "unsubscribe already", Null)));
  }

  lemma ConnectIsInside(k: Key, task: Task, db: Answer)
    ensures AllInside(k, ConnectDevice(k, task, db))
  {
    hide Refuse, Reply, AcceptsDevice, ParamItems, SerializeResponse;
    RefusalIsInside(k, task, if db.Failed? then db.what else "device not found");
    RefusalIsInside(k, task, "device control contains actions and/or variables");
    ReplyIsInside(k, task, Bool(true));
    ReplyFrame(task.request.id, Bool(true), Some(RpcError(UNKNOWN_ERROR_CODE, BAD_GET, Null)));
  }

  lemma ServedIsInside(g: Registries, k: Key, service: string, name: string, task: Task, db: Answer)
    requires !(service == "devices" && name == "request")
    ensures AllInside(k, Serve(g, k, service, name, task, db))
  {
    hide Refuse, Reply, AnswerOn, AnswerOff, WithGroups, CheckAccess, ConnectDevice, AllInside;
    RefusalIsInside(k, task, if db.Failed? then db.what else "device not connected");
    RefusalIsInside(k, task, "device-key not found");
    RefusalIsInside(k, task, "device not connected");
    RefusalIsInside(k, task, "device-key empty");
    ReplyIsInside(k, task, Arr(if db.Found? then db.rows else []));
    WithGroupsIsInside(k, task, db, "groups");
    WithGroupsIsInside(k, task, db, "on");
    CheckAccessIsInside(k, task, db);
    OnIsInside(g, k, task, db);
    OffIsInside(g, k, task);
    ConnectIsInside(k, task, db);
    var outs := Serve(g, k, service, name, task, db);
    if outs == [] || (|outs| == 1 && Inner(k, outs[0])) {
      InnerIsInside(k, outs);
    }
  }

  lemma InnerIsInside(k: Key, outs: seq<Packet>)
    requires outs == [] || (|outs| == 1 && Inner(k, outs[0]))
    ensures AllInside(k, outs)
  {
  }

  lemma RoutedIsInside(cfg: Config, k: Key, from: Id, m: Fields)
    requires IsRequest(m)
    ensures AllInside(k, ManagerDispatcher(cfg, k, from, m))
  {
    hide Refuse, ParseRequest, Split;
    if ParseRequest(m).Parsed? {
      var r := ParseRequest(m).value;
      var parts := Split(r.method_);
      RefusalIsInside(k, Task(from, r, map[]), "not specified correctly method");
      if |parts| > 1 {
        var task := Task(from, r, map["service.name" := parts[0], "service.method" := parts[1],
                                      "profile.key" := cfg(k)]);
        RefusalIsInside(k, task, "access is denied");
      }
    }
  }

  lemma AuthIsInside(g: Registries, k: Key, task: Task, db: Answer)
    ensures AllInside(k, Authenticate(g, k, task, db))
  {
    hide Refuse, Split;
    RefusalIsInside(k, task, if db.Failed? then db.what else "authentication bad");
  }

  lemma ServiceIsInside(k: Key, task: Task)
    ensures AllInside(k, RouteToService(k, task))
  {
    hide Refuse, Handlers;
    RefusalIsInside(k, task, "service not found");
    RefusalIsInside(k, task, "method not found");
    RefusalIsInside(k, task, "permission denied");
  }
}
