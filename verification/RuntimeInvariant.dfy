/** Every reachable state of the runtime delivers in order and loses no wakeup. */
module RuntimeInvariant {
  import opened Mailboxes
  import opened Options
  import opened Runtime

  /** What one step does to what it can be seen to change about one actor. */
  predicate Kept(s: State, t: State, a: Actor) {
    Outstanding(t, a) == Outstanding(s, a) && Log(t.handled, a) == Log(s.handled, a) && Log(t.puts, a) == Log(s.puts, a)
  }

  lemma PutAppends(s: State, a: Actor, m: Msg, x: Actor)
    ensures var t := Put(s, a, m);
            && Log(t.puts, x) == (if x == a then Log(s.puts, x) + [m] else Log(s.puts, x))
            && Outstanding(t, x) == (if x == a then Outstanding(s, x) + [m] else Outstanding(s, x))
  {
    if x == a {
      var b := Box(s, a);
      assert b.Put(m).Uncached() == b.Uncached() + [m];
    }
  }

  lemma DoneMovesOn(s: State, maxThroughput: nat)
    requires Inv(s) && s.pc.Executing?
    ensures InOrder(Apply(s, HandlerDone, maxThroughput))
  {
    var t := Apply(s, HandlerDone, maxThroughput);
    forall x: Actor
      ensures Log(t.handled, x) + Outstanding(t, x) == Log(t.puts, x)
    {
      assert Log(s.handled, x) + Outstanding(s, x) == Log(s.puts, x);
      assert Box(t, x) == Box(s, x);
      if x == s.pc.a {
        assert Outstanding(s, x) == [s.pc.msg] + Outstanding(t, x);
      } else {
        assert Outstanding(s, x) == Outstanding(t, x);
      }
    }
  }

  lemma PutKeepsPlaces(s: State, a: Actor, m: Msg, x: Actor)
    ensures Current(Put(s, a, m), x) == Current(s, x) && InHand(Put(s, a, m), x) == InHand(s, x)
  {
  }

  /** A put appends to what the actor was sent and to what it still has to do. */
  lemma PutInOrder(s: State, a: Actor, m: Msg, t: State, x: Actor)
    requires Log(s.handled, x) + Outstanding(s, x) == Log(s.puts, x)
    requires t.boxes == Put(s, a, m).boxes && t.handled == s.handled && t.puts == Put(s, a, m).puts
    requires Current(t, x) == Current(s, x) && InHand(t, x) == InHand(s, x)
    ensures Log(t.handled, x) + Outstanding(t, x) == Log(t.puts, x)
  {
    hide Put, Log, Current, InHand;
    PutAppends(s, a, m, x);
    PutKeepsPlaces(s, a, m, x);
    SamePlace(Put(s, a, m), t, x);
    hide Outstanding;
    if x == a {
      assert Log(t.puts, x) == Log(s.handled, x) + Outstanding(s, x) + [m];
    }
  }

  lemma SubmitInOrder(s: State, t: State, x: Actor)
    requires Log(s.handled, x) + Outstanding(s, x) == Log(s.puts, x)
    requires t.boxes == s.boxes && t.handled == s.handled && t.puts == s.puts
    requires Current(t, x) == Current(s, x) && InHand(t, x) == InHand(s, x)
    ensures Log(t.handled, x) + Outstanding(t, x) == Log(t.puts, x)
  {
    SamePlace(s, t, x);
  }

  lemma PutFrame(s: State, a: Actor, m: Msg)
    ensures var t := Put(s, a, m); t.pc == s.pc && t.handled == s.handled
  {
  }

  lemma SenderPutInOrder(s: State, a: Actor, m: Msg, maxThroughput: nat, x: Actor)
    requires Log(s.handled, x) + Outstanding(s, x) == Log(s.puts, x)
    ensures var t := Apply(s, SenderPut(a, m), maxThroughput); Log(t.handled, x) + Outstanding(t, x) == Log(t.puts, x)
  {
    hide Outstanding, Log, Box, Put;
    PutFrame(s, a, m);
    PutInOrder(s, a, m, Apply(s, SenderPut(a, m), maxThroughput), x);
  }

  lemma HandlerPutInOrder(s: State, a: Actor, m: Msg, maxThroughput: nat, x: Actor)
    requires Log(s.handled, x) + Outstanding(s, x) == Log(s.puts, x) && s.pc.Executing?
    ensures var t := Apply(s, HandlerPut(a, m), maxThroughput); Log(t.handled, x) + Outstanding(t, x) == Log(t.puts, x)
  {
    hide Outstanding, Log, Box, Put;
    PutFrame(s, a, m);
    PutInOrder(s, a, m, Apply(s, HandlerPut(a, m), maxThroughput), x);
  }

  lemma OtherStepInOrder(s: State, step: Step, maxThroughput: nat, x: Actor)
    requires Log(s.handled, x) + Outstanding(s, x) == Log(s.puts, x) && !step.WorkerStep? && !step.HandlerDone?
    ensures var t := Apply(s, step, maxThroughput); Log(t.handled, x) + Outstanding(t, x) == Log(t.puts, x)
  {
    hide Outstanding, Log, Apply;
    if step.SenderPut? {
      SenderPutInOrder(s, step.target, step.m, maxThroughput, x);
    } else if step.HandlerPut? {
      if s.pc.Executing? {
        HandlerPutInOrder(s, step.target, step.m, maxThroughput, x);
      } else {
        assert Apply(s, step, maxThroughput) == s by { PutElsewhere(s, step, maxThroughput); }
      }
    } else {
      SubmitStepInOrder(s, step, maxThroughput, x);
    }
  }

  lemma PutElsewhere(s: State, step: Step, maxThroughput: nat)
    requires step.HandlerPut? && !s.pc.Executing?
    ensures Apply(s, step, maxThroughput) == s
  {
  }

  lemma SubmitStepInOrder(s: State, step: Step, maxThroughput: nat, x: Actor)
    requires Log(s.handled, x) + Outstanding(s, x) == Log(s.puts, x)
    requires step.SenderSubmit? || step.HandlerSubmit? || step.Launch?
    ensures var t := Apply(s, step, maxThroughput); Log(t.handled, x) + Outstanding(t, x) == Log(t.puts, x)
  {
    hide Outstanding, Log, Box, Put, Work;
    SubmitInOrder(s, Apply(s, step, maxThroughput), x);
  }

  /** Steps of senders and handlers. */
  lemma OtherStepsInOrder(s: State, step: Step, maxThroughput: nat)
    requires Inv(s) && !step.WorkerStep?
    ensures InOrder(Apply(s, step, maxThroughput))
  {
    hide Outstanding, Log, Box, Apply;
    if step.HandlerDone? {
      if s.pc.Executing? {
        DoneMovesOn(s, maxThroughput);
      } else {
        assert Apply(s, step, maxThroughput) == s by { DoneElsewhere(s, maxThroughput); }
      }
    } else {
      var t := Apply(s, step, maxThroughput);
      forall x: Actor
        ensures Log(t.handled, x) + Outstanding(t, x) == Log(t.puts, x)
      {
        assert Log(s.handled, x) + Outstanding(s, x) == Log(s.puts, x);
        OtherStepInOrder(s, step, maxThroughput, x);
      }
    }
  }

  lemma DoneElsewhere(s: State, maxThroughput: nat)
    requires !s.pc.Executing?
    ensures Apply(s, HandlerDone, maxThroughput) == s
  {
  }

  lemma SamePlace(s: State, t: State, x: Actor)
    requires Box(s, x) == Box(t, x) && Current(s, x) == Current(t, x) && InHand(s, x) == InHand(t, x)
    ensures Outstanding(s, x) == Outstanding(t, x)
  {
  }

  lemma WorkTouchesOneBox(s: State, maxThroughput: nat, x: Actor)
    requires s.pc.Waiting? || x != s.pc.a
    ensures Box(Work(s, maxThroughput), x) == Box(s, x)
    ensures Work(s, maxThroughput).handled == s.handled && Work(s, maxThroughput).puts == s.puts
  {
    hide Mailbox.GetRest, Mailbox.GetResult, Mailbox.PopRest, Mailbox.PopResult, Mailbox.PushCache;
  }

  lemma WorkHoldsOneActor(s: State, maxThroughput: nat, x: Actor)
    requires s.pc.Waiting? || x != s.pc.a
    ensures var t := Work(s, maxThroughput); Current(t, x) == Current(s, x) && InHand(t, x) == InHand(s, x)
  {
    hide Mailbox.GetRest, Mailbox.GetResult, Mailbox.PopRest, Mailbox.PopResult, Mailbox.PushCache, Box;
  }

  lemma WorkElsewhere(s: State, maxThroughput: nat, x: Actor)
    requires s.pc.Waiting? || x != s.pc.a
    ensures Kept(s, Work(s, maxThroughput), x)
  {
    hide Outstanding, Log, Work, Current, InHand, Box;
    WorkTouchesOneBox(s, maxThroughput, x);
    WorkHoldsOneActor(s, maxThroughput, x);
    SamePlace(s, Work(s, maxThroughput), x);
  }

  function Listed(m: Option<Msg>): seq<Msg> {
    if m.Some? then [m.value] else []
  }

  /** A message taken into the hand comes right after the cache and before those left in the queues. */
  lemma TakenToHand(s: State, t: State, a: Actor)
    requires Box(t, a) == Box(s, a).GetRest()
    requires Current(s, a) == [] && InHand(s, a) == [] && Current(t, a) == []
    requires InHand(t, a) == Listed(Box(s, a).GetResult())
    ensures Outstanding(t, a) == Outstanding(s, a)
  {
    var b := Box(s, a);
    b.GetTakesOldest();
    assert Outstanding(s, a) == b.cache + b.Uncached();
    assert Outstanding(t, a) == b.cache + Listed(b.GetResult()) + b.GetRest().Uncached();
    assert b.Uncached() == Listed(b.GetResult()) + b.GetRest().Uncached();
  }

  /** With an empty cache the message taken for the handler is the oldest one. */
  lemma TakenToHandler(s: State, t: State, a: Actor)
    requires Box(t, a) == Box(s, a).GetRest() && Box(s, a).cache == []
    requires Current(s, a) == [] && InHand(s, a) == [] && InHand(t, a) == []
    requires Current(t, a) == Listed(Box(s, a).GetResult())
    ensures Outstanding(t, a) == Outstanding(s, a)
  {
    var b := Box(s, a);
    b.GetTakesOldest();
    assert Outstanding(s, a) == b.Uncached();
    assert Outstanding(t, a) == Listed(b.GetResult()) + b.GetRest().Uncached();
    assert b.Uncached() == Listed(b.GetResult()) + b.GetRest().Uncached();
  }

  lemma WorkTakes(s: State, maxThroughput: nat)
    requires PointsConsistent(s) && (s.pc.Fetch? || s.pc.Drain? || s.pc.Check?)
    ensures Kept(s, Work(s, maxThroughput), s.pc.a)
  {
    hide Outstanding, Log, Mailbox.GetRest, Mailbox.GetResult;
    var t, a := Work(s, maxThroughput), s.pc.a;
    assert Box(t, a) == Box(s, a).GetRest();
    assert t.handled == s.handled && t.puts == s.puts;
    if s.pc.Fetch? {
      TakenToHandler(s, t, a);
    } else {
      TakenToHand(s, t, a);
    }
  }

  lemma WorkPops(s: State, maxThroughput: nat)
    requires s.pc.Loop?
    ensures Kept(s, Work(s, maxThroughput), s.pc.a)
  {
    var t := Work(s, maxThroughput);
    var b := Box(s, s.pc.a);
    if s.pc.count < maxThroughput && b.cache != [] {
      assert Outstanding(s, s.pc.a) == b.cache + b.Uncached();
      assert Outstanding(t, s.pc.a) == [b.cache[0]] + b.cache[1..] + b.Uncached();
      assert b.cache == [b.cache[0]] + b.cache[1..];
    } else {
      SamePlace(s, t, s.pc.a);
    }
  }

  lemma WorkPushes(s: State, maxThroughput: nat)
    requires s.pc.Moving? || s.pc.CheckMoving?
    ensures Kept(s, Work(s, maxThroughput), s.pc.a)
  {
    var t := Work(s, maxThroughput);
    var b := Box(s, s.pc.a);
    assert Outstanding(s, s.pc.a) == b.cache + [s.pc.msg] + b.Uncached();
    assert Outstanding(t, s.pc.a) == (b.cache + [s.pc.msg]) + b.Uncached();
  }

  /** The worker moves messages without changing their order. */
  lemma WorkKeepsOrder(s: State, maxThroughput: nat, x: Actor)
    requires PointsConsistent(s)
    ensures Kept(s, Work(s, maxThroughput), x)
  {
    if s.pc.Waiting? || x != s.pc.a {
      WorkElsewhere(s, maxThroughput, x);
    } else {
      match s.pc
      case Fetch(_, _) => WorkTakes(s, maxThroughput);
      case Drain(_) => WorkTakes(s, maxThroughput);
      case Check(_) => WorkTakes(s, maxThroughput);
      case Loop(_, _) => WorkPops(s, maxThroughput);
      case Moving(_, _) => WorkPushes(s, maxThroughput);
      case CheckMoving(_, _) => WorkPushes(s, maxThroughput);
      case _ => SamePlace(s, Work(s, maxThroughput), x);
    }
  }

  lemma WorkInOrder(s: State, maxThroughput: nat)
    requires Inv(s)
    ensures InOrder(Work(s, maxThroughput))
  {
    var t := Work(s, maxThroughput);
    forall x: Actor
      ensures Log(t.handled, x) + Outstanding(t, x) == Log(t.puts, x)
    {
      WorkKeepsOrder(s, maxThroughput, x);
    }
  }

  lemma WorkPointsConsistent(s: State, maxThroughput: nat)
    requires NoLostWakeup(s) && PointsConsistent(s)
    ensures PointsConsistent(Work(s, maxThroughput))
  {
    if !s.pc.Waiting? {
      Box(s, s.pc.a).GetTakesOldest();
    }
  }

  /** The actor whose run returns without re-queueing has nothing left or is announced. */
  lemma AwaitingIsSafe(s: State, maxThroughput: nat)
    requires PointsConsistent(s) && !s.pc.Waiting? && Running(s, s.pc.a)
    requires var t := Work(s, maxThroughput); !t.pc.Waiting? && !Running(t, s.pc.a)
    ensures Outstanding(Work(s, maxThroughput), s.pc.a) == [] || Announced(Work(s, maxThroughput), s.pc.a)
  {
    Box(s, s.pc.a).GetTakesOldest();
  }

  lemma WorkLosesNoWakeup(s: State, maxThroughput: nat)
    requires Inv(s)
    ensures NoLostWakeup(Work(s, maxThroughput))
  {
    var t := Work(s, maxThroughput);
    hide Outstanding;
    forall x: Actor | Outstanding(t, x) != []
      ensures Announced(t, x) || Running(t, x)
    {
      WorkKeepsOrder(s, maxThroughput, x);
      assert Announced(s, x) || Running(s, x);
      if s.pc.Waiting? {
        assert s.queue != [] ==> s.queue == [s.queue[0]] + s.queue[1..];
      } else if x == s.pc.a && Running(s, x) && !t.pc.Waiting? && !Running(t, x) {
        AwaitingIsSafe(s, maxThroughput);
      }
    }
  }

  lemma OtherStepsLoseNoWakeup(s: State, step: Step, maxThroughput: nat)
    requires Inv(s) && !step.WorkerStep?
    ensures NoLostWakeup(Apply(s, step, maxThroughput))
  {
    hide Outstanding;
    var t := Apply(s, step, maxThroughput);
    forall x: Actor | Outstanding(t, x) != []
      ensures Announced(t, x) || Running(t, x)
    {
      if Outstanding(s, x) != [] {
        assert Announced(s, x) || Running(s, x);
        assert Announced(t, x) || Running(t, x);
      } else {
        OnlyPutsAdd(s, step, maxThroughput, x);
        assert Announced(t, x) || Running(t, x);
      }
    }
  }

  /** An actor that comes to have a message is announced by the sender of that message. */
  lemma OnlyPutsAdd(s: State, step: Step, maxThroughput: nat, x: Actor)
    requires !step.WorkerStep? && Outstanding(s, x) == []
    ensures var t := Apply(s, step, maxThroughput);
            Outstanding(t, x) == [] || Announced(t, x)
  {
    match step
    case SenderPut(a, m) =>
    case HandlerPut(a, m) =>
    case _ =>
  }

  lemma OtherStepsKeepPoints(s: State, step: Step, maxThroughput: nat)
    requires PointsConsistent(s) && !step.WorkerStep?
    ensures PointsConsistent(Apply(s, step, maxThroughput))
  {
  }

  lemma StepKeepsInv(s: State, step: Step, maxThroughput: nat)
    requires Inv(s)
    ensures Inv(Apply(s, step, maxThroughput))
  {
    if step.WorkerStep? {
      WorkInOrder(s, maxThroughput);
      WorkLosesNoWakeup(s, maxThroughput);
      WorkPointsConsistent(s, maxThroughput);
    } else {
      OtherStepsInOrder(s, step, maxThroughput);
      OtherStepsLoseNoWakeup(s, step, maxThroughput);
      OtherStepsKeepPoints(s, step, maxThroughput);
    }
  }

  /** In every interleaving of any number of senders, handlers and the worker. */
  lemma {:induction false} RunKeepsInv(steps: seq<Step>, maxThroughput: nat)
    ensures Inv(Run(INITIAL, steps, maxThroughput))
    decreases |steps|
  {
    if steps != [] {
      var before := steps[..|steps| - 1];
      RunKeepsInv(before, maxThroughput);
      StepKeepsInv(Run(INITIAL, before, maxThroughput), steps[|steps| - 1], maxThroughput);
    }
  }

  /** An idle worker with an empty job queue and no send in flight has handled every message. */
  lemma IdleMeansHandled(steps: seq<Step>, maxThroughput: nat, a: Actor)
    ensures var s := Run(INITIAL, steps, maxThroughput);
            s.pc.Waiting? && s.queue == [] && s.inFlight == multiset{} ==> Log(s.handled, a) == Log(s.puts, a)
  {
    RunKeepsInv(steps, maxThroughput);
    var s := Run(INITIAL, steps, maxThroughput);
    if s.pc.Waiting? && s.queue == [] && s.inFlight == multiset{} {
      assert Log(s.handled, a) + Outstanding(s, a) == Log(s.puts, a);
      assert !Announced(s, a) && !Running(s, a);
    }
  }

  /** At every moment the finished messages of an actor are the oldest of those sent to it. */
  lemma HandledIsPrefix(steps: seq<Step>, maxThroughput: nat, a: Actor)
    ensures var s := Run(INITIAL, steps, maxThroughput); Log(s.handled, a) <= Log(s.puts, a)
  {
    RunKeepsInv(steps, maxThroughput);
    var s := Run(INITIAL, steps, maxThroughput);
    assert Log(s.handled, a) + Outstanding(s, a) == Log(s.puts, a);
  }
}
