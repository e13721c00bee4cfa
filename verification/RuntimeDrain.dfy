/** When nothing new is sent, the worker comes to rest: every turn is paid for by a message, a job or a
    submit that was there before, in any interleaving. */
module RuntimeDrain {
  import opened Runtime
  import opened Workers

  /** The message that the worker holds outside the mailboxes. */
  function Held(pc: Pc): nat {
    if pc.Executing? || pc.Submitting? || pc.Moving? || pc.CheckMoving? then 1 else 0
  }

  /** What the current turn may still cost: its end, and one more when a message has paid for it. */
  function Owed(pc: Pc): nat {
    match pc
    case Waiting => 0
    case Loop(_, count) => if count == 0 then 1 else 2
    case Fetch(_, count) => if count == 0 then 1 else 2
    case Executing(_, count, _) => if count == 0 then 1 else 2
    case Submitting(_, count, _, _) => if count == 0 then 1 else 2
    case Returned(_, result) => if result == Awaiting then 1 else 2
    case _ => 2
  }

  /** Messages, jobs and submits that are left, and what the current turn owes. */
  ghost function Left(s: State): nat {
    Total(s.boxes) + Held(s.pc) + |s.queue| + |s.inFlight| + Owed(s.pc)
  }

  /** A step that sends nothing and launches nothing. */
  predicate Silent(step: Step) {
    !step.SenderPut? && !step.HandlerPut? && !step.Launch?
  }

  predicate EndsTurn(s: State, step: Step) {
    step.WorkerStep? && s.pc.Returned?
  }

  lemma WorkLowersLeft(s: State, maxThroughput: nat)
    requires maxThroughput > 0
    ensures Left(Work(s, maxThroughput)) + (if s.pc.Returned? then 1 else 0) <= Left(s)
  {
    hide Total;
    if !s.pc.Waiting? {
      var a := s.pc.a;
      GetKeepsTotal(s.boxes, a);
      TotalUpdates(s.boxes, a, BoxIn(s.boxes, a).PopRest());
      if s.pc.Moving? || s.pc.CheckMoving? {
        PushAddsOne(s.boxes, a, s.pc.msg);
      }
    }
  }

  lemma OthersKeepLeft(s: State, step: Step, maxThroughput: nat)
    requires Silent(step) && !step.WorkerStep? && !s.pc.Submitting?
    ensures Left(Apply(s, step, maxThroughput)) <= Left(s)
  {
    hide Total;
  }

  /** The turns that the worker completes. */
  function Turns(s: State, steps: seq<Step>, maxThroughput: nat): nat
    decreases |steps|
  {
    if steps == [] then 0
    else
      var n := |steps| - 1;
      Turns(s, steps[..n], maxThroughput) + if EndsTurn(Run(s, steps[..n], maxThroughput), steps[n]) then 1 else 0
  }

  lemma NeverSubmits(s: State, step: Step, maxThroughput: nat)
    requires Silent(step) && !s.pc.Submitting?
    ensures !Apply(s, step, maxThroughput).pc.Submitting?
  {
  }

  /** With a positive throughput the worker makes no more turns than there were messages, jobs and
      submits, whatever order senders and worker step in. */
  lemma {:induction false} TurnsAreBounded(s: State, steps: seq<Step>, maxThroughput: nat)
    requires maxThroughput > 0 && !s.pc.Submitting? && forall k | 0 <= k < |steps| :: Silent(steps[k])
    ensures var t := Run(s, steps, maxThroughput);
            Turns(s, steps, maxThroughput) + Left(t) <= Left(s) && !t.pc.Submitting?
    decreases |steps|
  {
    if steps != [] {
      var n := |steps| - 1;
      var t := Run(s, steps[..n], maxThroughput);
      TurnsAreBounded(s, steps[..n], maxThroughput);
      NeverSubmits(t, steps[n], maxThroughput);
      hide Left, Run, Apply;
      assert Run(s, steps, maxThroughput) == Apply(t, steps[n], maxThroughput) by { RunLast(s, steps, maxThroughput); }
      if steps[n].WorkerStep? {
        WorkLowersLeft(t, maxThroughput);
        WorkStepApplies(t, maxThroughput);
      } else {
        OthersKeepLeft(t, steps[n], maxThroughput);
      }
    }
  }

  lemma RunLast(s: State, steps: seq<Step>, maxThroughput: nat)
    requires steps != []
    ensures Run(s, steps, maxThroughput)
         == Apply(Run(s, steps[..|steps| - 1], maxThroughput), steps[|steps| - 1], maxThroughput)
  {
  }

  lemma WorkStepApplies(s: State, maxThroughput: nat)
    ensures Apply(s, WorkerStep, maxThroughput) == Work(s, maxThroughput)
  {
  }
}
