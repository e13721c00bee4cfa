/** Runs of the relay: what may happen, and which requests are where. */
module RelayRun {
  import opened JsonValue
  import opened JsonRpc
  import opened Options
  import opened Relay

  /** A request that waits for its answer: the session that asked and the request's id. */
  type Token = (Id, Value)

  function TokenAt(to: Id, m: Fields): seq<Token> {
    if "id" in m then [(to, m["id"])] else []
  }

  function TokenInside(m: Fields): seq<Token> {
    match TransportOf(m)
    case Some(to) => TokenAt(to, m)
    case None => []
  }

  function TokenOfTask(task: Task): seq<Token> {
    [(task.transportId, task.request.id)]
  }

  /** The request that a packet belongs to, if any; the session that asked is found where the hop keeps it. */
  function TokenOf(p: Packet): seq<Token> {
    match p
    case AtPlatform(from, m) => if IsRequest(m) then TokenAt(from, m) else TokenInside(m)
    case ProfileAuth(task) => TokenOfTask(task)
    case PlatformService(task) => TokenOfTask(task)
    case PlatformCall(_, _, task) => TokenOfTask(task)
    case ManagersRequest(task) => TokenOfTask(task)
    case ManagersResponse(m) => TokenInside(m)
    case PlatformWrite(to, m) => if IsRequest(m) then TokenInside(m) else TokenAt(to, m)
    case AtPlatformClient(_, m) => if IsRequest(m) then TokenInside(m) else []
    case AtManager(_, from, m) => if IsRequest(m) then TokenAt(from, m) else TokenInside(m)
    case UsersAuth(_, task) => TokenOfTask(task)
    case Service(_, task) => TokenOfTask(task)
    case Call(_, _, _, task) => TokenOfTask(task)
    case DevicesResponse(_, m) => TokenInside(m)
    case DevicesNotify(_, _) => []
    case Emit(_, _) => []
    case ManagerWrite(_, to, m) => if IsRequest(m) then TokenInside(m) else TokenAt(to, m)
    case PlatformPipe(_, to, m) => if IsRequest(m) then [] else TokenAt(to, m)
    case AtDevice(_, m) => if IsRequest(m) then TokenInside(m) else []
    case Control(_, _, task) => TokenOfTask(task)
    case DeviceWrite(_, to, m) => TokenAt(to, m)
  }

  function TokensOf(packets: seq<Packet>): multiset<Token> {
    if packets == [] then multiset{}
    else multiset(TokenOf(packets[0])) + TokensOf(packets[1..])
  }

  /** The request that a written frame answers, if it is a response. */
  function AnswerOf(f: Frame): seq<Token> {
    if IsResponse(f.message) then TokenAt(f.to, f.message) else []
  }

  function AnswersOf(frames: seq<Frame>): multiset<Token> {
    if frames == [] then multiset{}
    else multiset(AnswerOf(frames[0])) + AnswersOf(frames[1..])
  }

  // ---------------------------------------------------------------- runs

  /** `received` are the requests that arrived on a session, of clients and of managers. `forged` are the
      requests that response frames sent by clients claim to answer. `dropped` are the requests that
      some handler neither passed on nor answered. */
  datatype State = State(
    g: Registries,
    flight: seq<Packet>,
    received: multiset<Token>,
    forged: multiset<Token>,
    written: seq<Frame>,
    dropped: multiset<Token>)

  const INITIAL :=
    State(Registries(map[], {}, {}, map[], map[], map[], map[], {}, {}), [], multiset{}, multiset{}, [], multiset{})

  /** A closed session stays known to its listener until it is removed. Clients send any frame. The steps
      that register stand for the handshakes of managers and devices. `users.delete` forgets one cached key
      of its login, and which one is not specified, so that any key may be forgotten is a step. */
  datatype Step =
    | Open(id: Id, session: Session)
    | Close(id: Id)
    | Remove(id: Id)
    | ClientSends(id: Id, message: Fields)
    | RegisterManager(manager: Key, id: Id)
    | DeregisterManager(manager: Key)
    | RegisterDevice(manager: Key, device: Key, id: Id)
    | DeregisterDevice(manager: Key, device: Key)
    | Forget(manager: Key, userKey: string)
    | Deliver(at: nat, db: Answer, via: Id)

  /** A request that a manager forwards by mistake arrives at the platform as one of its own. */
  function Entered(p: Packet, outs: seq<Packet>): multiset<Token> {
    if p.PlatformPipe? && IsRequest(p.message) then TokensOf(outs) else multiset{}
  }

  function Handled(cfg: Config, s: State, at: nat, db: Answer, via: Id): State
    requires at < |s.flight|
  {
    var p := s.flight[at];
    var outs, frames := Outputs(cfg, s.g, p, db, via), Written(s.g, p);
    var entered := Entered(p, outs);
    State(Updated(s.g, p, db),
          s.flight[..at] + s.flight[at + 1..] + outs,
          s.received + entered,
          s.forged,
          s.written + frames,
          s.dropped + (multiset(TokenOf(p)) + entered - (TokensOf(outs) + AnswersOf(frames))))
  }

  /** A live connection from a manager to the platform. */
  predicate LinkLive(g: Registries, k: Key) {
    exists id | id in g.live :: RoleOf(g, id) == Some(ManagerLink(k))
  }

  /** A frame for the platform leaves through a live connection as long as there is one. */
  predicate Enabled(s: State, step: Step) {
    && step.Deliver? && step.at < |s.flight|
    && var p := s.flight[step.at];
       p.PlatformPipe? && LinkLive(s.g, p.manager) ==> SessionOf(s.g, step.via) == Some(ManagerLink(p.manager))
  }

  /** A frame arrives from a client of the platform, or of a manager. */
  function Arrived(s: State, id: Id, m: Fields): State {
    var received := if IsRequest(m) then s.received + multiset(TokenAt(id, m)) else s.received;
    var forged := if IsRequest(m) then s.forged else s.forged + multiset(TokenInside(m));
    match SessionOf(s.g, id)
    case Some(Client) => s.(flight := s.flight + [AtPlatform(id, m)], received := received, forged := forged)
    case Some(LocalClient(k)) => s.(flight := s.flight + [AtManager(k, id, m)], received := received, forged := forged)
    case _ => s
  }

  function Opened(g: Registries, id: Id, session: Session): Registries {
    g.(roles := g.roles[id := session], live := g.live + {id}, stored := g.stored + {id})
  }

  /** A step that is not enabled leaves the state alone. */
  function Apply(cfg: Config, s: State, step: Step): State {
    var g := s.g;
    match step
    case Open(id, session) => if id in g.roles then s else s.(g := Opened(g, id, session))
    case Close(id) => s.(g := g.(live := g.live - {id}))
    case Remove(id) => s.(g := g.(live := g.live - {id}, stored := g.stored - {id}))
    case ClientSends(id, m) => Arrived(s, id, m)
    case RegisterManager(k, id) =>
      if SessionOf(g, id) == Some(ManagerLink(k)) then s.(g := ManagerConnected(g, k, id)) else s
    case DeregisterManager(k) => s.(g := ManagerDisconnected(g, k))
    case RegisterDevice(k, device, id) =>
      if SessionOf(g, id) == Some(DeviceLink(k, device)) then s.(g := DeviceConnected(g, k, device, id)) else s
    case DeregisterDevice(k, device) => s.(g := DeviceDisconnected(g, k, device))
    case Forget(k, key) => s.(g := g.(users := g.users - {(k, key)}))
    case Deliver(at, db, via) => if Enabled(s, step) then Handled(cfg, s, at, db, via) else s
  }

  function Run(cfg: Config, s: State, steps: seq<Step>): State
    decreases |steps|
  {
    if steps == [] then s else Apply(cfg, Run(cfg, s, steps[..|steps| - 1]), steps[|steps| - 1])
  }

  /** A run with one more step. */
  lemma OneMore(cfg: Config, s: State, steps: seq<Step>, step: Step)
    ensures Run(cfg, s, steps + [step]) == Apply(cfg, Run(cfg, s, steps), step)
  {
    hide Apply;
    assert (steps + [step])[..|steps + [step]| - 1] == steps;
  }

  lemma RunOfNone(cfg: Config, s: State)
    ensures Run(cfg, s, []) == s
  {
  }

  /** Delivering the only packet. */
  lemma DeliverOnly(cfg: Config, s: State, steps: seq<Step>, p: Packet, db: Answer, via: Id)
    requires Run(cfg, s, steps).flight == [p]
    requires p.PlatformPipe? ==> SessionOf(Run(cfg, s, steps).g, via) == Some(ManagerLink(p.manager))
    ensures var r, t := Run(cfg, s, steps), Run(cfg, s, steps + [Deliver(0, db, via)]);
            && t.flight == Outputs(cfg, r.g, p, db, via) && t.g == Updated(r.g, p, db)
            && t.written == r.written + Written(r.g, p) && t.forged == r.forged
            && t.received == r.received + Entered(p, Outputs(cfg, r.g, p, db, via))
  {
    OneMore(cfg, s, steps, Deliver(0, db, via));
    hide Run, Outputs, Updated, Written, LinkLive, Entered;
  }

  /** Every request received, or claimed by a client's response frame, is in exactly one packet, or
      answered, or dropped. */
  predicate Conserved(s: State) {
    s.received + s.forged == TokensOf(s.flight) + AnswersOf(s.written) + s.dropped
  }
}
