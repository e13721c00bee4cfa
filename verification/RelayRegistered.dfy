/** Who is registered at a node, and who listens to a device, as told by the steps of a run. */
module RelayRegistered {
  import opened JsonValue
  import opened JsonRpc
  import opened Options
  import opened Relay
  import opened RelayRun
  import opened RelayHistory

  /** What one step does to a registration. */
  datatype Change = Connects(id: Id) | Leaves | Stays

  /** The first to come stays registered until somebody leaves in his name. */
  function After(registered: Option<Id>, change: Change): Option<Id> {
    match change
    case Stays => registered
    case Leaves => None
    case Connects(id) => if registered.Some? then registered else Some(id)
  }

  // ---------------------------------------------------------------- managers

  function ManagerTask(name: string, task: Task, db: Answer, k: Key): Change {
    if Param(task.request, "key") != Some(k) then Stays
    else if name == "connect" then (if db.Found? && db.count > 0 then Connects(task.transportId) else Stays)
    else if name == "disconnect" then Leaves
    else if name == "delete" then (if db.Found? && k != "" then Leaves else Stays)
    else Stays
  }

  function ManagerChange(g: Registries, step: Step, last: Option<Packet>, k: Key): Change {
    match step
    case RegisterManager(j, id) => if j == k && SessionOf(g, id) == Some(ManagerLink(k)) then Connects(id) else Stays
    case DeregisterManager(j) => if j == k then Leaves else Stays
    case Deliver(_, db, _) =>
      (match last
       case Some(PlatformCall(service, name, task)) =>
         if service == "managers" then ManagerTask(name, task, db, k) else Stays
       case _ => Stays)
    case _ => Stays
  }

  function ManagerSession(cfg: Config, steps: seq<Step>, k: Key): Option<Id>
    decreases |steps|
  {
    if steps == [] then None
    else
      var before, step := steps[..|steps| - 1], steps[|steps| - 1];
      After(ManagerSession(cfg, before, k), ManagerChange(Run(cfg, INITIAL, before).g, step, Last(cfg, steps), k))
  }

  function Registered<K>(registry: map<K, Id>, key: K): Option<Id> {
    if key in registry then Some(registry[key]) else None
  }

  lemma HandledManagers(g: Registries, p: Packet, at: nat, db: Answer, via: Id, k: Key)
    ensures Registered(Updated(g, p, db).managers, k)
         == After(Registered(g.managers, k), ManagerChange(g, Deliver(at, db, via), Some(p), k))
  {
    if p.PlatformCall? && p.service == "managers" {
      ManagerTaskUpdates(g, p.method_, p.task, db, k);
      hide UpdatedByPlatform, ManagerTask, Registered, After;
    } else {
      OthersKeepManagers(g, p, db);
      hide Updated, ManagerTask, Registered;
    }
  }

  lemma ManagerTaskUpdates(g: Registries, name: string, task: Task, db: Answer, k: Key)
    ensures Registered(UpdatedByPlatform(g, "managers", name, task, db).managers, k)
         == After(Registered(g.managers, k), ManagerTask(name, task, db, k))
  {
    hide Param;
  }

  lemma OthersKeepManagers(g: Registries, p: Packet, db: Answer)
    requires !(p.PlatformCall? && p.service == "managers")
    ensures Updated(g, p, db).managers == g.managers
  {
    hide Param, GroupsOf, AcceptsDevice, Without, Split, ClosesManager;
  }

  lemma SteppedManagers(cfg: Config, s: State, step: Step, k: Key)
    requires !step.Deliver?
    ensures Registered(Apply(cfg, s, step).g.managers, k)
         == After(Registered(s.g.managers, k), ManagerChange(s.g, step, None, k))
  {
    hide TokenInside, TokenAt;
  }

  /** The registry of the platform holds exactly the first session of a manager since it last left. */
  lemma {:induction false} ManagersAreRegistered(cfg: Config, steps: seq<Step>, k: Key)
    ensures Registered(Run(cfg, INITIAL, steps).g.managers, k) == ManagerSession(cfg, steps, k)
    decreases |steps|
  {
    if steps != [] {
      var before, step := steps[..|steps| - 1], steps[|steps| - 1];
      ManagersAreRegistered(cfg, before, k);
      RunLast(cfg, steps);
      var s, last := Run(cfg, INITIAL, before), Last(cfg, steps);
      hide Run, Last, Updated, Apply, Registered, ManagerTask;
      if last.Some? {
        HandledManagers(s.g, last.value, step.at, step.db, step.via, k);
      } else if !step.Deliver? {
        SteppedManagers(cfg, s, step, k);
      }
    }
  }

  // ---------------------------------------------------------------- devices

  predicate Texts(items: Option<seq<Value>>) {
    items.Some? && forall i | 0 <= i < |items.value| :: items.value[i].Str?
  }

  /** A device has to name its actions and variables, some of either, and the database has to know it. */
  function DeviceTask(name: string, task: Task, db: Answer, d: Key): Change {
    var actions, variables := ParamItems(task.request, "actions"), ParamItems(task.request, "variables");
    if Param(task.request, "key") != Some(d) then Stays
    else if name == "connect" then
      if Texts(actions) && Texts(variables) && (actions != Some([]) || variables != Some([])) &&
         db.Found? && db.count > 0
      then Connects(task.transportId) else Stays
    else if name == "disconnect" then Leaves
    else Stays
  }

  function DeviceChange(g: Registries, step: Step, last: Option<Packet>, k: Key, d: Key): Change {
    match step
    case RegisterDevice(j, e, id) =>
      if j == k && e == d && SessionOf(g, id) == Some(DeviceLink(k, d)) then Connects(id) else Stays
    case DeregisterDevice(j, e) => if j == k && e == d then Leaves else Stays
    case Deliver(_, db, _) =>
      (match last
       case Some(Call(j, service, name, task)) =>
         if j == k && service == "devices" then DeviceTask(name, task, db, d) else Stays
       case _ => Stays)
    case _ => Stays
  }

  function DeviceSession(cfg: Config, steps: seq<Step>, k: Key, d: Key): Option<Id>
    decreases |steps|
  {
    if steps == [] then None
    else
      var before, step := steps[..|steps| - 1], steps[|steps| - 1];
      After(DeviceSession(cfg, before, k, d), DeviceChange(Run(cfg, INITIAL, before).g, step, Last(cfg, steps), k, d))
  }

  lemma HandledDevices(g: Registries, p: Packet, at: nat, db: Answer, via: Id, k: Key, d: Key)
    ensures Registered(Updated(g, p, db).devices, (k, d))
         == After(Registered(g.devices, (k, d)), DeviceChange(g, Deliver(at, db, via), Some(p), k, d))
  {
    if p.Call? && p.service == "devices" {
      DeviceTaskUpdates(g, p.manager, p.method_, p.task, db, k, d);
      hide UpdatedByManager, DeviceTask, Registered, After;
    } else {
      OthersKeepDevices(g, p, db);
      hide Updated, DeviceTask, Registered;
    }
  }

  lemma DeviceTaskUpdates(g: Registries, j: Key, name: string, task: Task, db: Answer, k: Key, d: Key)
    ensures Registered(UpdatedByManager(g, j, "devices", name, task, db).devices, (k, d))
         == After(Registered(g.devices, (k, d)), if j == k then DeviceTask(name, task, db, d) else Stays)
  {
    hide Param, ParamItems;
  }

  lemma OthersKeepDevices(g: Registries, p: Packet, db: Answer)
    requires !(p.Call? && p.service == "devices")
    ensures Updated(g, p, db).devices == g.devices
  {
    hide Param, GroupsOf, AcceptsDevice, Without, Split, ClosesManager;
  }

  lemma SteppedDevices(cfg: Config, s: State, step: Step, k: Key, d: Key)
    requires !step.Deliver?
    ensures Registered(Apply(cfg, s, step).g.devices, (k, d))
         == After(Registered(s.g.devices, (k, d)), DeviceChange(s.g, step, None, k, d))
  {
    hide TokenInside, TokenAt;
  }

  /** The registry of a manager holds exactly the first session of a device since it last left. */
  lemma {:induction false} DevicesAreRegistered(cfg: Config, steps: seq<Step>, k: Key, d: Key)
    ensures Registered(Run(cfg, INITIAL, steps).g.devices, (k, d)) == DeviceSession(cfg, steps, k, d)
    decreases |steps|
  {
    if steps != [] {
      var before, step := steps[..|steps| - 1], steps[|steps| - 1];
      DevicesAreRegistered(cfg, before, k, d);
      RunLast(cfg, steps);
      var s, last := Run(cfg, INITIAL, before), Last(cfg, steps);
      hide Run, Last, Updated, Apply, Registered, DeviceTask;
      if last.Some? {
        HandledDevices(s.g, last.value, step.at, step.db, step.via, k, d);
      } else if !step.Deliver? {
        SteppedDevices(cfg, s, step, k, d);
      }
    }
  }

  // ---------------------------------------------------------------- listeners

  /** Somebody who knows the groups of a device may listen to it, and an administrator without. */
  predicate MayListen(task: Task, db: Answer) {
    && GroupsOf(task).Some? && GroupsOf(task).value != []
    && (forall i | 0 <= i < |GroupsOf(task).value| :: GroupsOf(task).value[i].Str?)
    && db.Found? && (db.rows != [] || Stored(task, "user.admin") != "0")
  }

  /** Whether `c` has subscribed to a device and not unsubscribed since. */
  function Listening(cfg: Config, steps: seq<Step>, k: Key, d: Key, c: Id): bool
    decreases |steps|
  {
    if steps == [] then false
    else
      var before, step := steps[..|steps| - 1], steps[|steps| - 1];
      match Last(cfg, steps)
      case Some(Call(j, service, name, task)) =>
        if j != k || service != "subscriptions" || task.transportId != c || Param(task.request, "device-key") != Some(d)
        then Listening(cfg, before, k, d, c)
        else if name == "off" then false
        else if name == "on" && step.Deliver? && MayListen(task, step.db) then true
        else Listening(cfg, before, k, d, c)
      case _ => Listening(cfg, before, k, d, c)
  }

  predicate Distinct(ids: seq<Id>) {
    forall i, j | 0 <= i < j < |ids| :: ids[i] != ids[j]
  }

  lemma {:induction false} WithoutOne(ids: seq<Id>, id: Id)
    requires Distinct(ids)
    ensures Distinct(Without(ids, id)) && forall c: Id :: c in Without(ids, id) <==> c in ids && c != id
  {
    if ids != [] {
      WithoutOne(ids[1..], id);
      assert forall c: Id :: c in ids <==> c == ids[0] || c in ids[1..];
      assert ids[0] !in ids[1..];
      var rest := Without(ids[1..], id);
      assert Without(ids, id) == if ids[0] == id then rest else [ids[0]] + rest;
    }
  }

  /** What `subscriptions.on` and `off` make of the listeners. */
  lemma SubscriptionChanges(g: Registries, j: Key, name: string, task: Task, db: Answer, k: Key, d: Key)
    requires Distinct(Subscribers(g, k, d))
    ensures var ids := Subscribers(UpdatedByManager(g, j, "subscriptions", name, task, db), k, d);
            var mine := j == k && Param(task.request, "device-key") == Some(d);
            && Distinct(ids)
            && (!mine ==> ids == Subscribers(g, k, d))
            && forall c: Id :: c in ids <==>
                 if mine && c == task.transportId && name == "off" then false
                 else if mine && c == task.transportId && name == "on" && MayListen(task, db) then true
                 else c in Subscribers(g, k, d)
  {
    hide Param, GroupsOf, Without;
    WithoutOne(Subscribers(g, k, d), task.transportId);
  }

  lemma OthersKeepListeners(g: Registries, p: Packet, db: Answer)
    requires !(p.Call? && p.service == "subscriptions")
    ensures Updated(g, p, db).subscribers == g.subscribers
  {
    hide Param, GroupsOf, AcceptsDevice, Without, Split, ClosesManager;
  }

  lemma SteppedListeners(cfg: Config, s: State, step: Step)
    requires !step.Deliver?
    ensures Apply(cfg, s, step).g.subscribers == s.g.subscribers
  {
    hide TokenInside, TokenAt;
  }

  /** The listeners of a device are those who subscribed to it and have not unsubscribed since, each once. */
  lemma {:induction false} ListenersAreListening(cfg: Config, steps: seq<Step>, k: Key, d: Key)
    ensures var ids := Subscribers(Run(cfg, INITIAL, steps).g, k, d);
            Distinct(ids) && forall c: Id :: c in ids <==> Listening(cfg, steps, k, d, c)
    decreases |steps|
  {
    if steps != [] {
      var before, step := steps[..|steps| - 1], steps[|steps| - 1];
      ListenersAreListening(cfg, before, k, d);
      RunLast(cfg, steps);
      var s, last := Run(cfg, INITIAL, before), Last(cfg, steps);
      hide Run, Last, Apply, MayListen, Subscribe, Unsubscribe, Distinct, UpdatedByManager, UpdatedByPlatform, Param;
      if last.None? {
        if !step.Deliver? {
          SteppedListeners(cfg, s, step);
        }
      } else if last.value.Call? && last.value.service == "subscriptions" {
        SubscriptionChanges(s.g, last.value.manager, last.value.method_, last.value.task, step.db, k, d);
      } else {
        OthersKeepListeners(s.g, last.value, step.db);
        hide Updated;
      }
    }
  }

  lemma {:induction false} CopiesGo(k: Key, m: Fields, ids: seq<Id>)
    requires "metadata" in m && m["metadata"].Obj?
    ensures forall i | 0 <= i < |ids| :: Copies(k, m, ids)[i] == CopyFor(k, m, ids[i])
  {
    if ids != [] {
      CopiesGo(k, m, ids[1..]);
    }
  }

  function CopyFor(k: Key, m: Fields, c: Id): Packet
    requires "metadata" in m && m["metadata"].Obj?
  {
    ManagerWrite(k, c, m["metadata" := Obj(m["metadata"].fields["transport" := Str(c)])])
  }

  /** Each listener gets one copy, and nobody else gets one. */
  predicate Reaches(k: Key, m: Fields, ids: seq<Id>, outs: seq<Packet>)
    requires "metadata" in m && m["metadata"].Obj?
  {
    && (forall q | q in outs :: q.ManagerWrite? && q.to in ids && q == CopyFor(k, m, q.to))
    && (forall c | c in ids :: CopyFor(k, m, c) in outs)
    && forall i, j | 0 <= i < j < |outs| :: outs[i] != outs[j]
  }

  lemma EmitReaches(g: Registries, k: Key, m: Fields, d: Key)
    requires MetadataText(m, "device-key") == Some(d) && Distinct(Subscribers(g, k, d))
    ensures Reaches(k, m, Subscribers(g, k, d), EmitToSubscribers(g, k, m))
  {
    var ids, outs := Subscribers(g, k, d), EmitToSubscribers(g, k, m);
    CopiesGo(k, m, ids);
    assert |ids| == |outs| && forall i | 0 <= i < |ids| :: outs[i] == CopyFor(k, m, ids[i]);
    forall c | c in ids ensures CopyFor(k, m, c) in outs {
      var i :| 0 <= i < |ids| && ids[i] == c;
      assert outs[i] == CopyFor(k, m, c);
    }
  }

  lemma EmitDelivered(cfg: Config, s: State, at: nat, db: Answer, via: Id)
    requires at < |s.flight| && s.flight[at].Emit?
    ensures Apply(cfg, s, Deliver(at, db, via)).flight ==
            s.flight[..at] + s.flight[at + 1..] + EmitToSubscribers(s.g, s.flight[at].manager, s.flight[at].message)
  {
    hide Updated, TokensOf, AnswersOf, TokenOf, EmitToSubscribers, Entered;
  }

  /** A notification of a device goes to each of its listeners once, marked with the listener, and to nobody
      else. */
  lemma ListenersAreNotified(cfg: Config, steps: seq<Step>, at: nat, k: Key, m: Fields, d: Key, db: Answer, via: Id)
    requires at < |Run(cfg, INITIAL, steps).flight| && Run(cfg, INITIAL, steps).flight[at] == Emit(k, m)
    requires MetadataText(m, "device-key") == Some(d)
    ensures var s, t := Run(cfg, INITIAL, steps), Run(cfg, INITIAL, steps + [Deliver(at, db, via)]);
            exists ids, outs ::
              && (forall c: Id :: c in ids <==> Listening(cfg, steps, k, d, c)) && Reaches(k, m, ids, outs)
              && t.flight == s.flight[..at] + s.flight[at + 1..] + outs
  {
    var s := Run(cfg, INITIAL, steps);
    var ids := Subscribers(s.g, k, d);
    ListenersAreListening(cfg, steps, k, d);
    OneMore(cfg, INITIAL, steps, Deliver(at, db, via));
    hide Run, Apply, Listening, Reaches, EmitToSubscribers, Subscribers, Distinct;
    EmitDelivered(cfg, s, at, db, via);
    EmitReaches(s.g, k, m, d);
    assert Reaches(k, m, ids, EmitToSubscribers(s.g, k, m));
  }
}
