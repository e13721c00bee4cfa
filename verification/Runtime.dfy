/** The actor runtime with one worker thread as a machine of atomic steps: any number of actors and
    of external senders, handlers that send while they run, and the worker that dequeues, runs,
    drains, checks and re-queues. */
module Runtime {
  import opened Mailboxes
  import opened Options

  type Actor = nat

  datatype RunResult = Resume | Awaiting

  /** Where the worker is. Each value is the point just before one atomic step. */
  datatype Pc =
    | Waiting
    | Loop(a: Actor, count: nat)
    | Fetch(a: Actor, count: nat)
    | Executing(a: Actor, count: nat, msg: Msg)
    | Submitting(a: Actor, count: nat, msg: Msg, target: Actor)
    | Drain(a: Actor)
    | Moving(a: Actor, msg: Msg)
    | Check(a: Actor)
    | CheckMoving(a: Actor, msg: Msg)
    | Returned(a: Actor, result: RunResult)

  /** `inFlight` counts the external senders between `put` and `submit`; `handled` and `puts` are
      the messages each actor finished and was sent, in order. */
  datatype State = State(
    boxes: map<Actor, Mailbox>,
    queue: seq<Actor>,
    inFlight: multiset<Actor>,
    pc: Pc,
    handled: map<Actor, seq<Msg>>,
    puts: map<Actor, seq<Msg>>)

  const INITIAL := State(map[], [], multiset{}, Waiting, map[], map[])

  function BoxIn(boxes: map<Actor, Mailbox>, a: Actor): Mailbox {
    if a in boxes then boxes[a] else EMPTY
  }

  function Box(s: State, a: Actor): Mailbox {
    BoxIn(s.boxes, a)
  }

  function Log(m: map<Actor, seq<Msg>>, a: Actor): seq<Msg> {
    if a in m then m[a] else []
  }

  function SetBox(s: State, a: Actor, b: Mailbox): State {
    s.(boxes := s.boxes[a := b])
  }

  function Put(s: State, a: Actor, m: Msg): State {
    SetBox(s, a, Box(s, a).Put(m)).(puts := s.puts[a := Log(s.puts, a) + [m]])
  }

  function Enqueue(s: State, a: Actor): State {
    s.(queue := s.queue + [a])
  }

  /** `Launch` is `launch` with `hide`, which queues a job without a message. */
  datatype Step =
    | SenderPut(target: Actor, m: Msg)
    | SenderSubmit(target: Actor)
    | HandlerPut(target: Actor, m: Msg)
    | HandlerSubmit
    | HandlerDone
    | Launch(target: Actor)
    | WorkerStep

  /** One atomic step of the worker outside handlers. */
  function Work(s: State, maxThroughput: nat): State {
    match s.pc
    case Waiting =>
      if s.queue == [] then s else s.(queue := s.queue[1..], pc := Loop(s.queue[0], 0))
    case Loop(a, count) =>
      if count >= maxThroughput then s.(pc := Drain(a))
      else if Box(s, a).PopResult().None? then s.(pc := Fetch(a, count))
      else SetBox(s, a, Box(s, a).PopRest()).(pc := Executing(a, count, Box(s, a).PopResult().value))
    case Fetch(a, count) =>
      var t := SetBox(s, a, Box(s, a).GetRest());
      if Box(s, a).GetResult().None? then t.(pc := Returned(a, Awaiting))
      else t.(pc := Executing(a, count, Box(s, a).GetResult().value))
    case Drain(a) =>
      var t := SetBox(s, a, Box(s, a).GetRest());
      if Box(s, a).GetResult().None? then t.(pc := Check(a)) else t.(pc := Moving(a, Box(s, a).GetResult().value))
    case Moving(a, m) => SetBox(s, a, Box(s, a).PushCache(m)).(pc := Drain(a))
    case Check(a) =>
      var t := SetBox(s, a, Box(s, a).GetRest());
      if Box(s, a).GetResult().None? then t.(pc := Returned(a, Resume))
      else t.(pc := CheckMoving(a, Box(s, a).GetResult().value))
    case CheckMoving(a, m) => SetBox(s, a, Box(s, a).PushCache(m)).(pc := Returned(a, Awaiting))
    case Returned(a, result) => (if result == Resume then Enqueue(s, a) else s).(pc := Waiting)
    case _ => s
  }

  /** A step that is not enabled leaves the state alone. */
  function Apply(s: State, step: Step, maxThroughput: nat): State {
    match step
    case SenderPut(a, m) => Put(s, a, m).(inFlight := s.inFlight + multiset{a})
    case SenderSubmit(a) =>
      if a in s.inFlight then Enqueue(s, a).(inFlight := s.inFlight - multiset{a}) else s
    case HandlerPut(a, m) =>
      if s.pc.Executing? then Put(s, a, m).(pc := Submitting(s.pc.a, s.pc.count, s.pc.msg, a)) else s
    case HandlerSubmit =>
      if s.pc.Submitting? then Enqueue(s, s.pc.target).(pc := Executing(s.pc.a, s.pc.count, s.pc.msg)) else s
    case HandlerDone =>
      if s.pc.Executing? then
        var a := s.pc.a;
        s.(pc := Loop(a, s.pc.count + 1), handled := s.handled[a := Log(s.handled, a) + [s.pc.msg]])
      else s
    case Launch(a) => Enqueue(s, a)
    case WorkerStep => Work(s, maxThroughput)
  }

  function Run(s: State, steps: seq<Step>, maxThroughput: nat): State
    decreases |steps|
  {
    if steps == [] then s
    else Apply(Run(s, steps[..|steps| - 1], maxThroughput), steps[|steps| - 1], maxThroughput)
  }

  // ---------------------------------------------------------------- exactly-once, in-order delivery

  /** The message that a handler of `a` is working on. */
  function Current(s: State, a: Actor): seq<Msg> {
    if (s.pc.Executing? || s.pc.Submitting?) && s.pc.a == a then [s.pc.msg] else []
  }

  /** The message of `a` on its way to the cache. */
  function InHand(s: State, a: Actor): seq<Msg> {
    if (s.pc.Moving? || s.pc.CheckMoving?) && s.pc.a == a then [s.pc.msg] else []
  }

  /** Everything sent to `a` and not yet finished, oldest first. */
  function Outstanding(s: State, a: Actor): seq<Msg> {
    Current(s, a) + Box(s, a).cache + InHand(s, a) + Box(s, a).Uncached()
  }

  ghost predicate InOrder(s: State) {
    forall a: Actor :: Log(s.handled, a) + Outstanding(s, a) == Log(s.puts, a)
  }

  // ---------------------------------------------------------------- no lost wakeup

  predicate Running(s: State, a: Actor) {
    !s.pc.Waiting? && s.pc.a == a && !(s.pc.Returned? && s.pc.result == Awaiting)
  }

  /** A job for `a` is queued, or a sender is about to queue one. */
  predicate Announced(s: State, a: Actor) {
    a in s.queue || a in s.inFlight || (s.pc.Submitting? && s.pc.target == a)
  }

  ghost predicate NoLostWakeup(s: State) {
    forall a: Actor :: Outstanding(s, a) != [] ==> Announced(s, a) || Running(s, a)
  }

  /** What holds at the program points where it is not yet decided whether the job is re-queued. */
  predicate PointsConsistent(s: State) {
    match s.pc
    case Fetch(a, _) => Box(s, a).cache == []
    case Check(a) => Box(s, a).Uncached() != [] ==> Announced(s, a)
    case CheckMoving(a, _) => Announced(s, a)
    case _ => true
  }

  ghost predicate Inv(s: State) {
    InOrder(s) && NoLostWakeup(s) && PointsConsistent(s)
  }
}
