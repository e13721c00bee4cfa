/** The one request that circles: a call of the authentication with the profile key of the manager. */
module RelayCircles {
  import opened JsonValue
  import opened JsonRpc
  import opened Relay
  import opened RelayRun
  import opened RelayMessages
  import opened RelayProgress

  function AuthRequest(cfg: Config, k: Key): Request {
    Request(Null, "users.auth", Null, map["user-key" := Str(cfg(k))])
  }

  /** The request of client `c`, in the manager that it names with the right key. */
  predicate Circling(cfg: Config, k: Key, c: Id, task: Task) {
    && task.transportId == c && task.request == AuthRequest(cfg, k)
    && Stored(task, "service.name") == "users" && Stored(task, "service.method") == "auth"
    && Stored(task, "profile.key") == cfg(k)
  }

  /** `p` is all that is in flight after `n` hops, and a request of `c` all that was received. */
  ghost predicate Alone(cfg: Config, c: Id, steps: seq<Step>, p: Packet, n: nat) {
    var s := Run(cfg, INITIAL, steps);
    && s.flight == [p] && s.received == multiset{(c, Null)} && s.forged == multiset{}
    && Hops(cfg, INITIAL, steps) >= n
  }

  /** After `n` hops the request is where it was. */
  ghost predicate CircledFor(cfg: Config, k: Key, c: Id, steps: seq<Step>, task: Task, n: nat) {
    Alone(cfg, c, steps, UsersAuth(k, task), n) && Circling(cfg, k, c, task)
  }

  lemma UsersIsSplit()
    ensures Split("users.auth") == ["users", "auth"]
  {
    hide Split;
    SplitAtDot("users", "auth");
    assert "users.auth" == "users" + "." + "auth";
  }

  /** In any state of the registries the handler of `p` sends `q`. */
  ghost predicate Leads(cfg: Config, p: Packet, q: Packet) {
    forall g: Registries :: Outputs(cfg, g, p, Failed(""), "") == [q]
  }

  /** Delivering the only packet, which has a request, is a hop. */
  lemma OneHop(cfg: Config, c: Id, steps: seq<Step>, p: Packet, q: Packet, n: nat)
    requires Alone(cfg, c, steps, p, n) && TokenOf(p) != [] && !p.PlatformPipe?
    requires Leads(cfg, p, q)
    ensures Alone(cfg, c, steps + [Deliver(0, Failed(""), "")], q, n + 1)
  {
    hide Run, TokenOf, Outputs, Updated, Written, TokensOf, Hops;
    DeliverOnly(cfg, INITIAL, steps, p, Failed(""), "");
    HopMore(cfg, steps, p);
  }

  lemma HopMore(cfg: Config, steps: seq<Step>, p: Packet)
    requires Run(cfg, INITIAL, steps).flight == [p] && TokenOf(p) != [] && !p.PlatformPipe?
    ensures Hops(cfg, INITIAL, steps + [Deliver(0, Failed(""), "")]) == Hops(cfg, INITIAL, steps) + 1
  {
    hide Run, TokenOf;
    var more := steps + [Deliver(0, Failed(""), "")];
    assert more[..|more| - 1] == steps;
  }

  function Known(task: Task, key: string): Task {
    task.(storage := Emplaced(task.storage["user.admin" := "1"], "user.login", Split(key)[0]))
  }

  lemma AuthLeads(cfg: Config, k: Key, c: Id, task: Task)
    requires Circling(cfg, k, c, task)
    ensures Circling(cfg, k, c, Known(task, cfg(k)))
    ensures Leads(cfg, UsersAuth(k, task), Service(k, Known(task, cfg(k))))
  {
    hide Split, Refuse;
  }

  lemma ServiceLeads(cfg: Config, k: Key, c: Id, task: Task)
    requires Circling(cfg, k, c, task) && Stored(task, "user.admin") == "1"
    ensures Leads(cfg, Service(k, task), Call(k, "users", "auth", task))
  {
    hide Refuse;
  }

  lemma CallLeads(cfg: Config, k: Key, task: Task)
    ensures Leads(cfg, Call(k, "users", "auth", task), UsersAuth(k, task))
  {
  }

  lemma ThreeHops(cfg: Config, c: Id, steps: seq<Step>, a: Packet, b: Packet, d: Packet, e: Packet, n: nat)
    returns (more: seq<Step>)
    requires Alone(cfg, c, steps, a, n) && Leads(cfg, a, b) && Leads(cfg, b, d) && Leads(cfg, d, e)
    requires forall p | p in [a, b, d] :: TokenOf(p) != [] && !p.PlatformPipe?
    ensures Alone(cfg, c, more, e, n + 3)
  {
    hide Alone, Leads, TokenOf;
    assert a in [a, b, d] && b in [a, b, d] && d in [a, b, d];
    OneHop(cfg, c, steps, a, b, n);
    more := steps + [Deliver(0, Failed(""), "")];
    OneHop(cfg, c, more, b, d, n + 1);
    more := more + [Deliver(0, Failed(""), "")];
    OneHop(cfg, c, more, d, e, n + 2);
    more := more + [Deliver(0, Failed(""), "")];
  }

  lemma Round(cfg: Config, k: Key, c: Id, steps: seq<Step>, task: Task, n: nat) returns (more: seq<Step>, next: Task)
    requires CircledFor(cfg, k, c, steps, task, n)
    ensures CircledFor(cfg, k, c, more, next, n + 3)
  {
    next := Known(task, cfg(k));
    hide Alone, Leads, Split;
    AuthLeads(cfg, k, c, task);
    ServiceLeads(cfg, k, c, next);
    CallLeads(cfg, k, next);
    hide Known, Circling;
    more := ThreeHops(cfg, c, steps, UsersAuth(k, task), Service(k, next), Call(k, "users", "auth", next),
                      UsersAuth(k, next), n);
  }

  lemma ClientCalls(cfg: Config, k: Key, c: Id)
    ensures var m := SerializeRequest(AuthRequest(cfg, k));
            Alone(cfg, c, [] + [Open(c, LocalClient(k))] + [ClientSends(c, m)], AtManager(k, c, m), 0)
  {
    var m := SerializeRequest(AuthRequest(cfg, k));
    RequestFrame(AuthRequest(cfg, k));
    hide Run, Hops, SerializeRequest, TokenInside;
    RunOfNone(cfg, INITIAL);
    OneMore(cfg, INITIAL, [], Open(c, LocalClient(k)));
    OneMore(cfg, INITIAL, [] + [Open(c, LocalClient(k))], ClientSends(c, m));
  }

  lemma FirstRound(cfg: Config, k: Key, c: Id) returns (steps: seq<Step>, task: Task)
    ensures CircledFor(cfg, k, c, steps, task, 0)
  {
    hide Run, Alone, Split, ParseRequest, SerializeRequest, TransportOf;
    var r := AuthRequest(cfg, k);
    var m := SerializeRequest(r);
    RequestFrame(r);
    UsersIsSplit();
    task := Task(c, r, map["service.name" := "users", "service.method" := "auth", "profile.key" := cfg(k)]);
    ClientCalls(cfg, k, c);
    steps := [] + [Open(c, LocalClient(k))] + [ClientSends(c, m)];
    OneHop(cfg, c, steps, AtManager(k, c, m), UsersAuth(k, task), 0);
    steps := steps + [Deliver(0, Failed(""), "")];
    FewerHops(cfg, k, c, steps, task, 1, 0);
  }

  /** There is no bound on its hops. */
  lemma {:induction false} AuthenticationCircles(cfg: Config, k: Key, c: Id, n: nat)
    ensures exists steps, task :: CircledFor(cfg, k, c, steps, task, n)
  {
    hide CircledFor;
    if n == 0 {
      var steps, task := FirstRound(cfg, k, c);
    } else {
      AuthenticationCircles(cfg, k, c, n - 1);
      var steps, task :| CircledFor(cfg, k, c, steps, task, n - 1);
      var more, next := Round(cfg, k, c, steps, task, n - 1);
      FewerHops(cfg, k, c, more, next, n + 2, n);
    }
  }

  lemma FewerHops(cfg: Config, k: Key, c: Id, steps: seq<Step>, task: Task, n: nat, m: nat)
    requires CircledFor(cfg, k, c, steps, task, n) && m <= n
    ensures CircledFor(cfg, k, c, steps, task, m)
  {
    hide Run, Hops;
  }
}
