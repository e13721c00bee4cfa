/** What one session that ends without deregistering leads to: requests of others are dropped, and connecting
    again does not help. */
module RelayForgotten {
  import opened JsonRpc
  import opened Options
  import opened Relay
  import opened RelayRun
  import opened RelayShape
  import opened RelayInvariant
  import opened RelayDismissal
  import opened RelayLinks
  import opened RelayLosses

  /** After a request for a device whose session is forgotten, requests for its manager are dropped that
      have nothing to do with the device. */
  lemma ForgottenDeviceCostsOthers(cfg: Config, s: State, k: Key, device: Key)
    requires Inv(cfg, true, s) && s.flight == [] && k in s.g.managers && s.g.managers[k] in s.g.live
    requires (k, device) in s.g.devices && device != "" && s.g.devices[(k, device)] !in s.g.stored
    ensures exists a, b ::
      && SparingRun(cfg, s, k, a) && CalmRun(cfg, Run(cfg, s, a), b)
      && Run(cfg, Run(cfg, s, a), b).dropped != Run(cfg, s, a).dropped
  {
    var via := s.g.managers[k];
    assert SessionOf(s.g, via) == Some(ManagerLink(k));
    hide Run, SparingRun, CalmRun, Placed;
    ForgottenDeviceCuts(cfg, s, k, via, device);
    var a :| SparingRun(cfg, s, k, a) && CutOff(s, Run(cfg, s, a), via);
    var t := Run(cfg, s, a);
    SparingRunKeepsInv(cfg, s, k, a);
    DeadManagerDrops(cfg, t, k);
    var b :| CalmRun(cfg, t, b) && Run(cfg, t, b).dropped != t.dropped;
  }

  /** A manager and a device connect, and the device's session ends with an error. */
  function OneDeviceLeaves(k: Key, device: Key, via: Id, link: Id): seq<Step> {
    [] + [Open(via, ManagerLink(k))] + [RegisterManager(k, via)] + [Open(link, DeviceLink(k, device))] +
    [RegisterDevice(k, device, link)] + [Remove(link)]
  }

  lemma OneDeviceLeft(cfg: Config, k: Key, device: Key, via: Id, link: Id)
    requires via != link
    ensures var s := Run(cfg, INITIAL, OneDeviceLeaves(k, device, via, link));
            && s.flight == [] && s.g.managers == map[k := via] && via in s.g.live
            && s.g.devices == map[(k, device) := link] && link !in s.g.stored
    ensures Inv(cfg, true, Run(cfg, INITIAL, OneDeviceLeaves(k, device, via, link)))
  {
    hide Run, Inv, StrictFrame, Enabled, Handled, Arrived;
    RunOfNone(cfg, INITIAL);
    InitialInv(cfg, true);
    var s0 := INITIAL;
    var s1 := Apply(cfg, s0, Open(via, ManagerLink(k)));
    var s2 := Apply(cfg, s1, RegisterManager(k, via));
    var s3 := Apply(cfg, s2, Open(link, DeviceLink(k, device)));
    var s4 := Apply(cfg, s3, RegisterDevice(k, device, link));
    var s5 := Apply(cfg, s4, Remove(link));
    StepKeepsInv(cfg, true, s0, Open(via, ManagerLink(k)));
    StepKeepsInv(cfg, true, s1, RegisterManager(k, via));
    StepKeepsInv(cfg, true, s2, Open(link, DeviceLink(k, device)));
    StepKeepsInv(cfg, true, s3, RegisterDevice(k, device, link));
    StepKeepsInv(cfg, true, s4, Remove(link));
    var steps := [];
    OneMore(cfg, INITIAL, steps, Open(via, ManagerLink(k)));
    steps := steps + [Open(via, ManagerLink(k))];
    OneMore(cfg, INITIAL, steps, RegisterManager(k, via));
    steps := steps + [RegisterManager(k, via)];
    OneMore(cfg, INITIAL, steps, Open(link, DeviceLink(k, device)));
    steps := steps + [Open(link, DeviceLink(k, device))];
    OneMore(cfg, INITIAL, steps, RegisterDevice(k, device, link));
    steps := steps + [RegisterDevice(k, device, link)];
    OneMore(cfg, INITIAL, steps, Remove(link));
    steps := steps + [Remove(link)];
    assert Run(cfg, INITIAL, steps) == s5;
  }

  /** So one device that leaves without deregistering is enough for requests of others to be dropped. */
  lemma OneDeviceCostsOthers(cfg: Config, k: Key, device: Key, via: Id, link: Id)
    requires via != link && device != ""
    ensures var s := Run(cfg, INITIAL, OneDeviceLeaves(k, device, via, link));
            exists a, b ::
              && SparingRun(cfg, s, k, a) && CalmRun(cfg, Run(cfg, s, a), b)
              && Run(cfg, Run(cfg, s, a), b).dropped != Run(cfg, s, a).dropped
  {
    hide Run, Inv, SparingRun, CalmRun, OneDeviceLeaves;
    OneDeviceLeft(cfg, k, device, via, link);
    ForgottenDeviceCostsOthers(cfg, Run(cfg, INITIAL, OneDeviceLeaves(k, device, via, link)), k, device);
  }

  // ---------------------------------------------------------------- reconnecting

  /** The manager is registered under a session that is gone. */
  predicate DeadManager(g: Registries, k: Key, via: Id) {
    k in g.managers && g.managers[k] == via && via in g.roles && via !in g.live
  }

  /** Nothing in flight deletes the manager. */
  predicate NoDeletion(k: Key, packets: seq<Packet>) {
    forall i | 0 <= i < |packets| :: DeletedOf(packets[i]) != Some(k)
  }

  /** Nobody deregisters or deletes the manager. */
  predicate KeepsManager(cfg: Config, s: State, k: Key, step: Step) {
    StrictStep(cfg, s, step) && step != DeregisterManager(k) && DeletedIn(s.g, step) != Some(k)
  }

  predicate KeepingRun(cfg: Config, s: State, k: Key, steps: seq<Step>)
    decreases |steps|
  {
    steps != [] ==>
      && KeepingRun(cfg, s, k, steps[..|steps| - 1])
      && KeepsManager(cfg, Run(cfg, s, steps[..|steps| - 1]), k, steps[|steps| - 1])
  }

  lemma DeliveryKeepsDeadManager(cfg: Config, s: State, k: Key, via: Id, step: Step)
    requires Inv(cfg, true, s) && DeadManager(s.g, k, via) && NoDeletion(k, s.flight) && Enabled(s, step)
    ensures var t := Apply(cfg, s, step); DeadManager(t.g, k, via) && NoDeletion(k, t.flight)
  {
    hide Inv, Updated, Outputs, Written, Entered, TokensOf, AnswersOf, TokenOf, Typed, DeletedOf;
    var p := s.flight[step.at];
    assert RegistriesOk(s.g, true) && Shape(cfg, s.g, true, p) by { InFlightIsShaped(cfg, s, step.at); }
    HandledKeepsManager(cfg, s.g, k, p, step.db);
    UpdatedKeeps(cfg, s.g, true, p, step.db);
    HandledDeletes(cfg, s.g, p, step.db, step.via);
  }

  lemma StepKeepsDeadManager(cfg: Config, s: State, k: Key, via: Id, step: Step)
    requires Inv(cfg, true, s) && DeadManager(s.g, k, via) && NoDeletion(k, s.flight) && KeepsManager(cfg, s, k, step)
    ensures var t := Apply(cfg, s, step); DeadManager(t.g, k, via) && NoDeletion(k, t.flight)
  {
    hide Inv, Enabled, Handled, Arrived, DeletedOf, StrictFrame;
    if step.Deliver? {
      if Enabled(s, step) {
        hide DeadManager, NoDeletion, Apply;
        DeliveryKeepsDeadManager(cfg, s, k, via, step);
      }
    } else if step.ClientSends? {
      ArrivesWith(s, step.id, step.message);
      ArrivalRegistersNothing(s, step.id, step.message);
    }
  }

  lemma InFlightIsShaped(cfg: Config, s: State, at: nat)
    requires Inv(cfg, true, s) && at < |s.flight|
    ensures RegistriesOk(s.g, true) && Shape(cfg, s.g, true, s.flight[at])
  {
    hide RegistriesOk, Typed, Bare, CleanFrames, Conserved;
  }

  lemma ArrivalRegistersNothing(s: State, id: Id, m: Fields)
    ensures Arrived(s, id, m).g == s.g
  {
    hide SessionOf, TokenAt, TokenInside;
  }

  /** A manager that lost its connection may connect as often as it likes: its requests go on to the session
      that is gone until it is deregistered or deleted. */
  lemma {:induction false} ReconnectingDoesNotHelp(cfg: Config, s: State, k: Key, via: Id, steps: seq<Step>)
    requires Inv(cfg, true, s) && DeadManager(s.g, k, via) && NoDeletion(k, s.flight)
    requires KeepingRun(cfg, s, k, steps)
    ensures var t := Run(cfg, s, steps); Inv(cfg, true, t) && DeadManager(t.g, k, via) && NoDeletion(k, t.flight)
    decreases |steps|
  {
    hide Inv, DeadManager, NoDeletion, Apply, StrictStep, DeletedIn;
    if steps != [] {
      var before, step := steps[..|steps| - 1], steps[|steps| - 1];
      ReconnectingDoesNotHelp(cfg, s, k, via, before);
      StepKeepsInv(cfg, true, Run(cfg, s, before), step);
      StepKeepsDeadManager(cfg, Run(cfg, s, before), k, via, step);
    }
  }
}
