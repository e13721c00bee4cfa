/** The past of a run, and the status of a device, which is its last command. The past is read off the steps. */
module RelayHistory {
  import opened JsonValue
  import opened JsonRpc
  import opened Options
  import opened Relay
  import opened RelayRun
  import opened RelayShape
  import opened RelayInvariant

  /** The packet that the last step of a run delivers, if it delivers one. */
  function Last(cfg: Config, steps: seq<Step>): Option<Packet>
    requires steps != []
  {
    var s, step := Run(cfg, INITIAL, steps[..|steps| - 1]), steps[|steps| - 1];
    if Enabled(s, step) then Some(s.flight[step.at]) else None
  }

  /** The last step of a run is one of its state. */
  lemma RunLast(cfg: Config, steps: seq<Step>)
    requires steps != []
    ensures var s, step := Run(cfg, INITIAL, steps[..|steps| - 1]), steps[|steps| - 1];
            && Run(cfg, INITIAL, steps) == Apply(cfg, s, step)
            && (Last(cfg, steps).Some? ==>
                  step.Deliver? && step.at < |s.flight| && s.flight[step.at] == Last(cfg, steps).value)
            && (Last(cfg, steps).Some? ==>
                  Apply(cfg, s, step).g == Updated(s.g, Last(cfg, steps).value, step.db))
            && (Last(cfg, steps).None? ==> !Enabled(s, step))
            && (Last(cfg, steps).None? && (step.Deliver? || step.ClientSends?) ==> Apply(cfg, s, step).g == s.g)
  {
    OneMore(cfg, INITIAL, steps[..|steps| - 1], steps[|steps| - 1]);
    assert steps == steps[..|steps| - 1] + [steps[|steps| - 1]];
    hide Run, Outputs, Updated, Written, Entered, TokensOf, AnswersOf, TokenOf, TokenInside, TokenAt;
  }

  lemma ShapedInRuns(cfg: Config, steps: seq<Step>)
    requires steps != [] && Last(cfg, steps).Some?
    ensures var g := Run(cfg, INITIAL, steps[..|steps| - 1]).g;
            RegistriesOk(g, false) && Shape(cfg, g, false, Last(cfg, steps).value)
  {
    RunLast(cfg, steps);
    InitialInv(cfg, false);
    RunKeepsInv(cfg, false, INITIAL, steps[..|steps| - 1]);
    hide Run, Last, RegistriesOk, Bare, Typed;
  }

  // ---------------------------------------------------------------- the status of a device

  /** The last `on` or `off` that was delivered to the device connected as `link`. */
  function LastCommand(cfg: Config, steps: seq<Step>, link: Id): Option<bool>
    decreases |steps|
  {
    if steps == [] then None
    else
      match Last(cfg, steps)
      case Some(Control(l, name, _)) =>
        if l == link && name == "on" then Some(true)
        else if l == link && name == "off" then Some(false)
        else LastCommand(cfg, steps[..|steps| - 1], link)
      case _ => LastCommand(cfg, steps[..|steps| - 1], link)
  }

  predicate IsOn(g: Registries, link: Id) {
    link in g.status && g.status[link]
  }

  lemma OthersKeepStatus(g: Registries, p: Packet, db: Answer)
    requires !p.Control?
    ensures Updated(g, p, db).status == g.status
  {
    hide Param, GroupsOf, AcceptsDevice, Without, Split, ClosesManager;
  }

  lemma StepsKeepStatus(cfg: Config, s: State, step: Step)
    requires !step.Deliver?
    ensures Apply(cfg, s, step).g.status == s.g.status
  {
    hide TokenInside, TokenAt;
  }

  /** A device is on if and only if the last command that it was given is `on`. */
  lemma {:induction false} StatusIsLastCommand(cfg: Config, steps: seq<Step>, link: Id)
    ensures IsOn(Run(cfg, INITIAL, steps).g, link) <==> LastCommand(cfg, steps, link) == Some(true)
    decreases |steps|
  {
    if steps != [] {
      var before, step := steps[..|steps| - 1], steps[|steps| - 1];
      StatusIsLastCommand(cfg, before, link);
      RunLast(cfg, steps);
      var s := Run(cfg, INITIAL, before);
      if Last(cfg, steps).Some? {
        ShapedInRuns(cfg, steps);
        hide Run, Last, RegistriesOk, Apply;
        if !Last(cfg, steps).value.Control? {
          OthersKeepStatus(s.g, Last(cfg, steps).value, step.db);
          hide Updated, Shape;
        }
      } else {
        hide Run, Last, Updated, Apply;
        if !step.Deliver? {
          StepsKeepStatus(cfg, s, step);
        }
      }
    }
  }

  /** The answer to `control.status` is that status, and a notification says what was just commanded. */
  lemma StatusIsAnswered(cfg: Config, steps: seq<Step>, at: nat, db: Answer, via: Id)
    requires at < |Run(cfg, INITIAL, steps).flight| && Run(cfg, INITIAL, steps).flight[at].Control?
    ensures var s, t := Run(cfg, INITIAL, steps), Run(cfg, INITIAL, steps + [Deliver(at, db, via)]);
            var p := s.flight[at];
            var outs := ControlOutputs(p.link, p.task, p.method_, LastCommand(cfg, steps, p.link) == Some(true));
            t.flight == s.flight[..at] + s.flight[at + 1..] + outs
  {
    var s := Run(cfg, INITIAL, steps);
    StatusIsLastCommand(cfg, steps, s.flight[at].link);
    OneMore(cfg, INITIAL, steps, Deliver(at, db, via));
    hide Run, LastCommand, Apply, ControlOutputs, IsOn;
    ControlDelivered(cfg, s, at, db, via);
  }

  lemma ControlDelivered(cfg: Config, s: State, at: nat, db: Answer, via: Id)
    requires at < |s.flight| && s.flight[at].Control?
    ensures var p := s.flight[at];
            Apply(cfg, s, Deliver(at, db, via)).flight ==
            s.flight[..at] + s.flight[at + 1..] + ControlOutputs(p.link, p.task, p.method_, IsOn(s.g, p.link))
  {
    var p := s.flight[at];
    ControlSays(s.g, p.link, p.method_, p.task);
    hide ControlOutputs, ControlAnswers, IsOn, TokensOf, AnswersOf, TokenOf, Updated;
  }

  /** An action is answered with true, the query with the status, each without an error; an action is also
      notified. */
  function ControlOutputs(link: Id, task: Task, name: string, on: bool): seq<Packet> {
    var answer := map["jsonrpc" := Str("2.0"), "id" := task.request.id,
                      "result" := if name == "status" then Bool(on) else Bool(true)];
    var notice := map["jsonrpc" := Str("2.0"), "method" := Str("control.status"), "params" := Bool(name == "on")];
    [DeviceWrite(link, task.transportId, answer)] +
    if name == "status" then [] else [DeviceWrite(link, task.transportId, notice)]
  }

  lemma ControlSays(g: Registries, link: Id, name: string, task: Task)
    ensures ControlAnswers(g, link, name, task) == ControlOutputs(link, task, name, IsOn(g, link))
  {
    var answer := map["jsonrpc" := Str("2.0"), "id" := task.request.id,
                      "result" := if name == "status" then Bool(IsOn(g, link)) else Bool(true)];
    var notice := map["jsonrpc" := Str("2.0"), "method" := Str("control.status"), "params" := Bool(name == "on")];
    assert ResultMessage(task.request.id, if name == "status" then Bool(IsOn(g, link)) else Bool(true)) == answer;
    assert SerializeNotify(Notify("control.status", Bool(name == "on"), map[])) == notice;
  }
}
