/** The loops of the worker and of an actor's run, left to themselves: no sender interferes, and a
    handler performs the list of sends that `handler` gives for its message. Each method is shown to
    be a run of the machine in `Runtime`. */
module Workers {
  import opened Mailboxes
  import opened Options
  import opened Runtime
  import opened RuntimeInvariant

  function Size(b: Mailbox): nat {
    |b.cache| + |b.local| + |b.mail|
  }

  /** How many messages wait in all mailboxes together. */
  ghost function Total(boxes: map<Actor, Mailbox>): nat
    decreases |boxes|
  {
    if boxes == map[] then 0
    else
      var a :| a in boxes;
      Size(boxes[a]) + Total(boxes - {a})
  }

  /** The sum does not depend on the order of the actors. */
  lemma {:induction false} TotalTakesOut(boxes: map<Actor, Mailbox>, a: Actor)
    requires a in boxes
    ensures Total(boxes) == Size(boxes[a]) + Total(boxes - {a})
    decreases |boxes|
  {
    var c :| c in boxes && Total(boxes) == Size(boxes[c]) + Total(boxes - {c});
    if c != a {
      TotalTakesOut(boxes - {c}, a);
      TotalTakesOut(boxes - {a}, c);
      assert boxes - {c} - {a} == boxes - {a} - {c};
    }
  }

  lemma TotalUpdates(boxes: map<Actor, Mailbox>, a: Actor, b: Mailbox)
    ensures Total(boxes[a := b]) == Total(boxes) - Size(BoxIn(boxes, a)) + Size(b)
  {
    TotalTakesOut(boxes[a := b], a);
    if a in boxes {
      TotalTakesOut(boxes, a);
      assert boxes[a := b] - {a} == boxes - {a};
    } else {
      assert boxes[a := b] - {a} == boxes;
    }
  }

  // ---------------------------------------------------------------- one run is bounded

  /** The number of messages finished in the current run of `a`, as far as the worker's place tells. */
  predicate Counted(t: State, a: Actor, n: int, maxThroughput: nat) {
    match t.pc
    case Waiting => false
    case Loop(x, count) => x == a && n == count <= maxThroughput
    case Fetch(x, count) => x == a && n == count < maxThroughput
    case Executing(x, count, _) => x == a && n == count < maxThroughput
    case Submitting(x, count, _, _) => x == a && n == count < maxThroughput
    case Returned(x, result) => x == a && 0 <= n <= maxThroughput && (result == Resume ==> n == maxThroughput)
    case _ => t.pc.a == a && n == maxThroughput
  }

  lemma WorkCounts(s: State, a: Actor, n: int, maxThroughput: nat)
    requires Counted(s, a, n, maxThroughput)
    ensures var t := Work(s, maxThroughput);
            t.handled == s.handled && (t.pc.Waiting? || Counted(t, a, n, maxThroughput))
  {
    hide Mailbox.GetRest, Mailbox.GetResult, Mailbox.PopRest, Mailbox.PopResult, Mailbox.PushCache, Box, Log;
  }

  lemma StepCounts(s: State, step: Step, a: Actor, n: int, maxThroughput: nat)
    requires Counted(s, a, n, maxThroughput)
    ensures var t := Apply(s, step, maxThroughput);
            || t.pc.Waiting?
            || Counted(t, a, n + |Log(t.handled, a)| - |Log(s.handled, a)|, maxThroughput)
  {
    hide Log;
    if step.WorkerStep? {
      hide Work;
      WorkCounts(s, a, n, maxThroughput);
    } else if step.HandlerDone? {
      hide Work;
      if s.pc.Executing? {
        LogGrows(s.handled, s.pc.a, s.pc.msg);
      }
    } else {
      hide Apply;
      PutsAndSubmitsCount(s, step, a, n, maxThroughput);
    }
  }

  lemma PutsAndSubmitsCount(s: State, step: Step, a: Actor, n: int, maxThroughput: nat)
    requires Counted(s, a, n, maxThroughput) && !step.WorkerStep? && !step.HandlerDone?
    ensures var t := Apply(s, step, maxThroughput);
            t.handled == s.handled && Counted(t, a, n, maxThroughput)
  {
    hide Mailbox.Put, Box, Work, Log;
  }

  lemma LogGrows(m: map<Actor, seq<Msg>>, a: Actor, msg: Msg)
    ensures |Log(m[a := Log(m, a) + [msg]], a)| == |Log(m, a)| + 1
  {
  }

  /** The worker is inside one run in every state on the way. */
  ghost predicate WithinRun(s: State, steps: seq<Step>, maxThroughput: nat) {
    forall k | 0 <= k <= |steps| :: !Run(s, steps[..k], maxThroughput).pc.Waiting?
  }

  /** Whatever senders do meanwhile, a run handles at most `maxThroughput` messages, and it asks to be
      resumed only after exactly that many. */
  lemma {:induction false} RunIsBounded(s: State, a: Actor, steps: seq<Step>, maxThroughput: nat)
    requires s.pc == Loop(a, 0) && WithinRun(s, steps, maxThroughput)
    ensures var t := Run(s, steps, maxThroughput);
            var n := |Log(t.handled, a)| - |Log(s.handled, a)|;
            && Counted(t, a, n, maxThroughput)
            && 0 <= n <= maxThroughput
            && (t.pc == Returned(a, Resume) ==> n == maxThroughput)
    decreases |steps|
  {
    if steps != [] {
      var before := steps[..|steps| - 1];
      assert WithinRun(s, before, maxThroughput) by {
        forall k | 0 <= k <= |before| ensures !Run(s, before[..k], maxThroughput).pc.Waiting? {
          assert before[..k] == steps[..k];
        }
      }
      RunIsBounded(s, a, before, maxThroughput);
      var u := Run(s, before, maxThroughput);
      StepCounts(u, steps[|steps| - 1], a, |Log(u.handled, a)| - |Log(s.handled, a)|, maxThroughput);
      assert steps[..|steps|] == steps;
    }
  }

  // ---------------------------------------------------------------- the configured throughput may be 0

  predicate NeverExecutes(s: State) {
    s.handled == map[] && !s.pc.Fetch? && !s.pc.Executing? && !s.pc.Submitting?
  }

  lemma {:induction false} ZeroHandlesNothing(steps: seq<Step>)
    ensures NeverExecutes(Run(INITIAL, steps, 0))
    decreases |steps|
  {
    if steps != [] {
      ZeroHandlesNothing(steps[..|steps| - 1]);
    }
  }

  /** A sender's put and submit, the worker's dequeue, its look at the cache and at the queues. */
  function OneMessage(): seq<Step> {
    [SenderPut(0, 0)] + [SenderSubmit(0)] + [WorkerStep] + [WorkerStep] + [WorkerStep] + [HandlerDone]
  }

  lemma OneMessageApplied(maxThroughput: nat)
    requires maxThroughput > 0
    ensures var sent := Apply(Apply(INITIAL, SenderPut(0, 0), maxThroughput), SenderSubmit(0), maxThroughput);
            var popped := Apply(Apply(sent, WorkerStep, maxThroughput), WorkerStep, maxThroughput);
            0 in Apply(Apply(popped, WorkerStep, maxThroughput), HandlerDone, maxThroughput).handled
  {
    hide Work;
    var put := Apply(INITIAL, SenderPut(0, 0), maxThroughput);
    assert Box(put, 0).mail == [] + [0];
    var sent := Apply(put, SenderSubmit(0), maxThroughput);
    assert sent.queue == [0] && Box(sent, 0) == Box(put, 0) && sent.pc == Waiting;
    var begun := Apply(sent, WorkerStep, maxThroughput);
    assert Work(sent, maxThroughput) == sent.(queue := [], pc := Loop(0, 0)) by { DequeueOnly(sent, maxThroughput); }
    var popped := Apply(begun, WorkerStep, maxThroughput);
    LookOnly(begun, maxThroughput);
    var got := Apply(popped, WorkerStep, maxThroughput);
    FetchOnly(popped, maxThroughput);
    assert got.pc.Executing? && got.pc.a == 0;
  }

  lemma DequeueOnly(s: State, maxThroughput: nat)
    requires s.pc.Waiting? && |s.queue| == 1
    ensures Work(s, maxThroughput) == s.(queue := [], pc := Loop(s.queue[0], 0))
  {
  }

  lemma LookOnly(s: State, maxThroughput: nat)
    requires s.pc.Loop? && s.pc.count < maxThroughput && Box(s, s.pc.a).cache == []
    ensures Work(s, maxThroughput) == s.(pc := Fetch(s.pc.a, s.pc.count))
  {
  }

  lemma FetchOnly(s: State, maxThroughput: nat)
    requires s.pc.Fetch? && Box(s, s.pc.a).mail != []
    ensures var t := Work(s, maxThroughput); t.pc.Executing? && t.pc.a == s.pc.a
  {
  }

  lemma OneMessageHandled(maxThroughput: nat)
    requires maxThroughput > 0
    ensures 0 in Run(INITIAL, OneMessage(), maxThroughput).handled
  {
    hide Apply;
    OneMessageApplied(maxThroughput);
    assert [] + [SenderPut(0, 0)] == [SenderPut(0, 0)];
    RunExtends(INITIAL, [], SenderPut(0, 0), maxThroughput);
    RunNothing(INITIAL, maxThroughput);
    hide Run;
    var steps := [SenderPut(0, 0)];
    RunExtends(INITIAL, steps, SenderSubmit(0), maxThroughput);
    steps := steps + [SenderSubmit(0)];
    RunExtends(INITIAL, steps, WorkerStep, maxThroughput);
    steps := steps + [WorkerStep];
    RunExtends(INITIAL, steps, WorkerStep, maxThroughput);
    steps := steps + [WorkerStep];
    RunExtends(INITIAL, steps, WorkerStep, maxThroughput);
    steps := steps + [WorkerStep];
    RunExtends(INITIAL, steps, HandlerDone, maxThroughput);
  }

  /** Some run handles a message if and only if the configured throughput is positive; the
      configuration only refuses negative values. */
  lemma HandlesIffPositive(maxThroughput: nat)
    ensures (exists steps: seq<Step> :: Run(INITIAL, steps, maxThroughput).handled != map[]) <==> maxThroughput > 0
  {
    if maxThroughput > 0 {
      OneMessageHandled(maxThroughput);
    } else {
      forall steps: seq<Step> ensures Run(INITIAL, steps, maxThroughput).handled == map[] {
        ZeroHandlesNothing(steps);
      }
    }
  }

  // ---------------------------------------------------------------- the loops

  lemma RunExtends(s: State, steps: seq<Step>, step: Step, maxThroughput: nat)
    ensures Run(s, steps + [step], maxThroughput) == Apply(Run(s, steps, maxThroughput), step, maxThroughput)
  {
    assert (steps + [step])[..|steps|] == steps;
  }

  lemma {:induction false} RunJoins(s: State, first: seq<Step>, second: seq<Step>, maxThroughput: nat)
    ensures Run(s, first + second, maxThroughput) == Run(Run(s, first, maxThroughput), second, maxThroughput)
    decreases |second|
  {
    hide Apply;
    if second == [] {
      assert first + second == first;
    } else {
      var before := second[..|second| - 1];
      RunJoins(s, first, before, maxThroughput);
      assert first + second == (first + before) + [second[|second| - 1]];
      RunExtends(s, first + before, second[|second| - 1], maxThroughput);
    }
  }

  lemma {:induction false} RunKeepsInvFrom(s: State, steps: seq<Step>, maxThroughput: nat)
    requires Inv(s)
    ensures Inv(Run(s, steps, maxThroughput))
    decreases |steps|
  {
    if steps != [] {
      RunKeepsInvFrom(s, steps[..|steps| - 1], maxThroughput);
      StepKeepsInv(Run(s, steps[..|steps| - 1], maxThroughput), steps[|steps| - 1], maxThroughput);
    }
  }

  lemma RunNothing(s: State, maxThroughput: nat)
    ensures Run(s, [], maxThroughput) == s
  {
  }

  lemma DequeueRun(s: State, maxThroughput: nat)
    requires s.pc.Waiting? && s.queue != []
    ensures Run(s, [WorkerStep], maxThroughput) == s.(queue := s.queue[1..], pc := Loop(s.queue[0], 0))
  {
    assert [WorkerStep][..0] == [];
  }

  lemma PopStep(s: State, maxThroughput: nat)
    requires s.pc.Loop? && s.pc.count < maxThroughput
    ensures var a, b, count := s.pc.a, BoxIn(s.boxes, s.pc.a), s.pc.count;
            Apply(s, WorkerStep, maxThroughput) ==
            if b.PopResult().None? then s.(pc := Fetch(a, count))
            else s.(boxes := s.boxes[a := b.PopRest()], pc := Executing(a, count, b.PopResult().value))
  {
  }

  lemma FetchStep(s: State, maxThroughput: nat)
    requires s.pc.Fetch?
    ensures var a, b, count := s.pc.a, BoxIn(s.boxes, s.pc.a), s.pc.count;
            Apply(s, WorkerStep, maxThroughput) ==
            s.(boxes := s.boxes[a := b.GetRest()],
               pc := if b.GetResult().None? then Returned(a, Awaiting)
                     else Executing(a, count, b.GetResult().value))
  {
  }

  lemma StopStep(s: State, maxThroughput: nat)
    requires s.pc.Loop? && s.pc.count >= maxThroughput
    ensures Apply(s, WorkerStep, maxThroughput) == s.(pc := Drain(s.pc.a))
  {
  }

  lemma MoveStep(s: State, maxThroughput: nat)
    requires s.pc.Moving?
    ensures Apply(s, WorkerStep, maxThroughput)
         == s.(boxes := s.boxes[s.pc.a := BoxIn(s.boxes, s.pc.a).PushCache(s.pc.msg)], pc := Drain(s.pc.a))
  {
  }

  lemma DoneStep(s: State, maxThroughput: nat)
    requires s.pc.Executing?
    ensures var a := s.pc.a;
            Apply(s, HandlerDone, maxThroughput) ==
            s.(pc := Loop(a, s.pc.count + 1), handled := s.handled[a := Log(s.handled, a) + [s.pc.msg]])
  {
  }

  lemma DispatchStep(s: State, maxThroughput: nat)
    requires s.pc.Returned?
    ensures Apply(s, WorkerStep, maxThroughput)
         == s.(pc := Waiting, queue := if s.pc.result == Resume then s.queue + [s.pc.a] else s.queue)
  {
  }

  /** Nothing waits in an idle system: whoever had a message would have been announced. */
  lemma EverythingHandled(s: State, a: Actor)
    requires Inv(s) && s.pc.Waiting? && s.queue == [] && s.inFlight == multiset{}
    ensures Log(s.handled, a) == Log(s.puts, a)
  {
    assert Log(s.handled, a) + Outstanding(s, a) == Log(s.puts, a);
    assert !Announced(s, a) && !Running(s, a);
  }

  lemma GetKeepsTotal(boxes: map<Actor, Mailbox>, a: Actor)
    ensures var b := BoxIn(boxes, a);
            && Total(boxes[a := b.GetRest()]) == Total(boxes) - (if b.GetResult().Some? then 1 else 0)
            && (b.GetResult().None? ==> b.GetRest().Uncached() == [])
            && (b.GetResult().Some? ==> |b.GetRest().Uncached()| < |b.Uncached()|)
  {
    BoxIn(boxes, a).GetTakesOldest();
    TotalUpdates(boxes, a, BoxIn(boxes, a).GetRest());
  }

  lemma PushAddsOne(boxes: map<Actor, Mailbox>, a: Actor, m: Msg)
    ensures Total(boxes[a := BoxIn(boxes, a).PushCache(m)]) == Total(boxes) + 1
  {
    TotalUpdates(boxes, a, BoxIn(boxes, a).PushCache(m));
  }

  lemma SendIsTwoSteps(s: State, target: Actor, m: Msg, maxThroughput: nat)
    requires s.pc.Executing?
    ensures Apply(Apply(s, HandlerPut(target, m), maxThroughput), HandlerSubmit, maxThroughput)
         == Enqueue(Put(s, target, m), target)
  {
  }

  class Worker {
    const maxThroughput: nat
    const handler: (Actor, Msg) -> seq<(Actor, Msg)>
    var boxes: map<Actor, Mailbox>
    var queue: seq<Actor>
    ghost var handled: map<Actor, seq<Msg>>
    ghost var puts: map<Actor, seq<Msg>>

    ghost function View(pc: Pc): State
      reads this
    {
      State(boxes, queue, multiset{}, pc, handled, puts)
    }

    ghost predicate Valid()
      reads this
    {
      Inv(View(Waiting))
    }

    ghost predicate Silent() {
      forall a: Actor, m: Msg :: handler(a, m) == []
    }

    ghost function Measure(): nat
      reads this
    {
      Total(boxes) + |queue|
    }

    constructor (maxThroughput: nat, handler: (Actor, Msg) -> seq<(Actor, Msg)>)
      ensures this.maxThroughput == maxThroughput && this.handler == handler
      ensures View(Waiting) == INITIAL && Valid()
    {
      this.maxThroughput, this.handler := maxThroughput, handler;
      boxes, queue, handled, puts := map[], [], map[], map[];
      new;
      RunKeepsInv([], maxThroughput);
    }

    /** `pop_to_cache` of the mailbox of `a`. */
    method PopToCache(a: Actor) returns (m: Option<Msg>)
      modifies this`boxes
      ensures m == BoxIn(old(boxes), a).PopResult()
      ensures boxes == if m.Some? then old(boxes)[a := BoxIn(old(boxes), a).PopRest()] else old(boxes)
    {
      var b := BoxIn(boxes, a);
      m := b.PopResult();
      if m.Some? {
        boxes := boxes[a := b.PopRest()];
      }
    }

    /** `next_message`. */
    method NextMessage(a: Actor) returns (m: Option<Msg>)
      modifies this`boxes
      ensures m == BoxIn(old(boxes), a).GetResult()
      ensures boxes == old(boxes)[a := BoxIn(old(boxes), a).GetRest()]
    {
      var b := BoxIn(boxes, a);
      m := b.GetResult();
      boxes := boxes[a := b.GetRest()];
    }

    /** `push_to_cache`. */
    method PushToCache(a: Actor, m: Msg)
      modifies this`boxes
      ensures boxes == old(boxes)[a := BoxIn(old(boxes), a).PushCache(m)]
    {
      boxes := boxes[a := BoxIn(boxes, a).PushCache(m)];
    }

    /** `send` with a device: put, then a job for the receiver at the end of the queue. */
    method Send(target: Actor, m: Msg)
      modifies this`boxes, this`queue, this`puts
      ensures forall pc :: View(pc) == Enqueue(Put(old(View(pc)), target, m), target)
    {
      boxes := boxes[target := BoxIn(boxes, target).Put(m)];
      puts := puts[target := Log(puts, target) + [m]];
      queue := queue + [target];
    }

    /** `reactions_.execute`: the handler of `a` runs to its end. */
    method Execute(a: Actor, ghost count: nat, m: Msg) returns (ghost steps: seq<Step>)
      modifies this
      ensures View(Loop(a, count + 1)) == Run(old(View(Executing(a, count, m))), steps, maxThroughput)
      ensures Silent() ==> boxes == old(boxes) && queue == old(queue)
    {
      hide Run, Apply, Put, Enqueue;
      ghost var pc, start := Executing(a, count, m), View(Executing(a, count, m));
      RunNothing(start, maxThroughput);
      var sends := handler(a, m);
      steps := [];
      for i := 0 to |sends|
        invariant View(pc) == Run(start, steps, maxThroughput)
        invariant sends == [] ==> boxes == old(boxes) && queue == old(queue)
      {
        var (target, sent) := sends[i];
        ghost var before := View(pc);
        Send(target, sent);
        RunExtends(start, steps, HandlerPut(target, sent), maxThroughput);
        RunExtends(start, steps + [HandlerPut(target, sent)], HandlerSubmit, maxThroughput);
        steps := steps + [HandlerPut(target, sent)] + [HandlerSubmit];
        SendIsTwoSteps(before, target, sent, maxThroughput);
      }
      RunExtends(start, steps, HandlerDone, maxThroughput);
      steps := steps + [HandlerDone];
      DoneStep(View(pc), maxThroughput);
      handled := handled[a := Log(handled, a) + [m]];
    }

    /** `async_actor::run`. Left alone it asks to be resumed exactly when it used up its allowance. */
    method ActorRun(a: Actor) returns (result: RunResult, ghost steps: seq<Step>)
      modifies this
      ensures View(Returned(a, result)) == Run(old(View(Loop(a, 0))), steps, maxThroughput)
      ensures Silent() ==>
                && queue == old(queue)
                && 0 <= Total(old(boxes)) - Total(boxes) <= maxThroughput
                && result == (if Total(old(boxes)) - Total(boxes) == maxThroughput then Resume else Awaiting)
    {
      hide Run, Apply;
      ghost var start := View(Loop(a, 0));
      steps := [];
      RunNothing(start, maxThroughput);
      var handledMsgs := 0;
      while handledMsgs < maxThroughput
        invariant handledMsgs <= maxThroughput
        invariant View(Loop(a, handledMsgs)) == Run(start, steps, maxThroughput)
        invariant Silent() ==> queue == old(queue) && Total(boxes) + handledMsgs == Total(old(boxes))
      {
        var msg;
        msg, steps := NextToHandle(a, handledMsgs, start, steps);
        if msg.None? {
          return Awaiting, steps;
        }
        ghost var executed := Execute(a, handledMsgs, msg.value);
        RunJoins(start, steps, executed, maxThroughput);
        steps := steps + executed;
        handledMsgs := handledMsgs + 1;
      }
      steps := DrainToCache(a, handledMsgs, start, steps);
      result, steps := LastCheck(a, start, steps);
    }

    /** The first message of the cache or, when that is empty, of the queues. */
    method NextToHandle(a: Actor, ghost count: nat, ghost start: State, ghost steps: seq<Step>)
      returns (m: Option<Msg>, ghost more: seq<Step>)
      requires count < maxThroughput && View(Loop(a, count)) == Run(start, steps, maxThroughput)
      modifies this`boxes
      ensures View(if m.Some? then Executing(a, count, m.value) else Returned(a, Awaiting))
           == Run(start, more, maxThroughput)
      ensures Total(boxes) == Total(old(boxes)) - (if m.Some? then 1 else 0)
    {
      hide Run, Total, Apply;
      more := steps + [WorkerStep];
      RunExtends(start, steps, WorkerStep, maxThroughput);
      PopStep(View(Loop(a, count)), maxThroughput);
      m := PopToCache(a);
      if m.Some? {
        TotalUpdates(old(boxes), a, BoxIn(old(boxes), a).PopRest());
        return;
      }
      FetchStep(View(Fetch(a, count)), maxThroughput);
      m := NextMessage(a);
      RunExtends(start, more, WorkerStep, maxThroughput);
      more := more + [WorkerStep];
      TotalUpdates(old(boxes), a, BoxIn(old(boxes), a).GetRest());
    }

    /** Everything left in the queues goes to the cache. */
    method DrainToCache(a: Actor, ghost count: nat, ghost start: State, ghost steps: seq<Step>)
      returns (ghost more: seq<Step>)
      requires count >= maxThroughput && View(Loop(a, count)) == Run(start, steps, maxThroughput)
      modifies this`boxes
      ensures View(Check(a)) == Run(start, more, maxThroughput)
      ensures BoxIn(boxes, a).Uncached() == []
      ensures Total(boxes) == Total(old(boxes))
    {
      hide Run, Apply, Total;
      RunExtends(start, steps, WorkerStep, maxThroughput);
      more := steps + [WorkerStep];
      StopStep(View(Loop(a, count)), maxThroughput);
      var msg;
      msg, more := DrainOne(a, start, more);
      while msg.Some?
        invariant View(if msg.Some? then Moving(a, msg.value) else Check(a)) == Run(start, more, maxThroughput)
        invariant msg.None? ==> BoxIn(boxes, a).Uncached() == []
        invariant Total(boxes) + (if msg.Some? then 1 else 0) == Total(old(boxes))
        decreases msg.Some?, |BoxIn(boxes, a).Uncached()|
      {
        ghost var held := boxes;
        PushToCache(a, msg.value);
        PushAddsOne(held, a, msg.value);
        RunExtends(start, more, WorkerStep, maxThroughput);
        more := more + [WorkerStep];
        MoveStep(View(Moving(a, msg.value)).(boxes := held), maxThroughput);
        msg, more := DrainOne(a, start, more);
      }
    }

    method DrainOne(a: Actor, ghost start: State, ghost steps: seq<Step>)
      returns (msg: Option<Msg>, ghost more: seq<Step>)
      requires View(Drain(a)) == Run(start, steps, maxThroughput)
      modifies this`boxes
      ensures View(if msg.Some? then Moving(a, msg.value) else Check(a)) == Run(start, more, maxThroughput)
      ensures msg.None? ==> BoxIn(boxes, a).Uncached() == []
      ensures msg.Some? ==> |BoxIn(boxes, a).Uncached()| < |BoxIn(old(boxes), a).Uncached()|
      ensures Total(boxes) + (if msg.Some? then 1 else 0) == Total(old(boxes))
    {
      hide Run, Total;
      msg := NextMessage(a);
      GetKeepsTotal(old(boxes), a);
      RunExtends(start, steps, WorkerStep, maxThroughput);
      more := steps + [WorkerStep];
    }

    /** `has_next_message` and the result of the run. */
    method LastCheck(a: Actor, ghost start: State, ghost steps: seq<Step>)
      returns (result: RunResult, ghost more: seq<Step>)
      requires View(Check(a)) == Run(start, steps, maxThroughput)
      modifies this`boxes
      ensures View(Returned(a, result)) == Run(start, more, maxThroughput)
      ensures Total(boxes) == Total(old(boxes))
      ensures old(BoxIn(boxes, a)).Uncached() == [] ==> result == Resume
    {
      hide Run, Total;
      var msg := NextMessage(a);
      GetKeepsTotal(old(boxes), a);
      RunExtends(start, steps, WorkerStep, maxThroughput);
      more := steps + [WorkerStep];
      if msg.Some? {
        ghost var held := boxes;
        PushToCache(a, msg.value);
        PushAddsOne(held, a, msg.value);
        RunExtends(start, more, WorkerStep, maxThroughput);
        more := more + [WorkerStep];
        result := Awaiting;
      } else {
        result := Resume;
      }
    }

    /** One turn of `worker::run`. The work left gets smaller exactly when runs may handle anything. */
    method Turn() returns (ghost steps: seq<Step>)
      requires Valid() && queue != []
      modifies this
      ensures Valid()
      ensures View(Waiting) == Run(old(View(Waiting)), steps, maxThroughput)
      ensures Silent() ==> (Measure() < old(Measure()) <==> maxThroughput > 0)
    {
      hide Run, Apply, Inv;
      ghost var start := View(Waiting);
      var job := queue[0];
      queue := queue[1..];
      DequeueRun(start, maxThroughput);
      var result, rest := ActorRun(job);
      RunJoins(start, [WorkerStep], rest, maxThroughput);
      steps := [WorkerStep] + rest;
      ghost var returned := View(Returned(job, result));
      RunExtends(start, steps, WorkerStep, maxThroughput);
      steps := steps + [WorkerStep];
      if result == Resume {
        queue := queue + [job];
      }
      DispatchStep(returned, maxThroughput);
      RunKeepsInvFrom(start, steps, maxThroughput);
    }

    /** With handlers that send nothing the worker empties its queue, and every message is handled. */
    method DrainQueue()
      requires Valid() && Silent() && maxThroughput > 0
      modifies this
      ensures queue == []
      ensures forall a: Actor :: Log(handled, a) == Log(puts, a)
    {
      while queue != []
        invariant Valid()
        decreases Measure()
      {
        ghost var steps := Turn();
      }
      forall a: Actor ensures Log(handled, a) == Log(puts, a) {
        EverythingHandled(View(Waiting), a);
      }
    }
  }
}
