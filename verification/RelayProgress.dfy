/** A request does not circle in the relay: it has a bounded number of hops, unless it calls the
    authentication itself. */
module RelayProgress {
  import opened JsonValue
  import opened JsonRpc
  import opened Options
  import opened Relay
  import opened RelayRun
  import opened RelayShape
  import opened RelayMessages
  import opened RelayHandlers
  import opened RelayInvariant

  /** The hops that the request in a packet may still take, this one included. */
  function Weight(p: Packet): nat {
    if TokenOf(p) == [] then 0 else Rank(p) + 1
  }

  function Potential(packets: seq<Packet>): nat {
    if packets == [] then 0 else Weight(packets[0]) + Potential(packets[1..])
  }

  const LONGEST := 34

  lemma {:induction false} PotentialJoins(a: seq<Packet>, b: seq<Packet>)
    ensures Potential(a + b) == Potential(a) + Potential(b)
  {
    hide Weight;
    if a == [] {
      assert a + b == b;
    } else {
      assert a + b == [a[0]] + (a[1..] + b);
      PotentialJoins(a[1..], b);
    }
  }

  lemma PotentialOfOne(p: Packet)
    ensures Potential([p]) == Weight(p)
  {
    hide Weight;
    assert [p][1..] == [];
  }

  lemma PotentialWithout(packets: seq<Packet>, at: nat)
    requires at < |packets|
    ensures Potential(packets) == Potential(packets[..at] + packets[at + 1..]) + Weight(packets[at])
  {
    hide Potential, Weight;
    PotentialJoins(packets[..at], packets[at + 1..]);
    PotentialJoins(packets[..at], [packets[at]] + packets[at + 1..]);
    PotentialJoins([packets[at]], packets[at + 1..]);
    PotentialOfOne(packets[at]);
    assert packets == packets[..at] + ([packets[at]] + packets[at + 1..]);
  }

  lemma OneToken(p: Packet)
    ensures |TokenOf(p)| <= 1 && (|TokenOf(p)| == 0 ==> Weight(p) == 0)
  {
  }

  lemma FirstAndRest(packets: seq<Packet>)
    requires packets != []
    ensures |TokensOf(packets)| == |TokenOf(packets[0])| + |TokensOf(packets[1..])|
    ensures Potential(packets) == Weight(packets[0]) + Potential(packets[1..])
  {
    hide TokenOf, Weight;
  }

  lemma AddsUp(most: nat, weight: nat, tokens: nat, potential: nat, rest: nat)
    requires tokens <= 1 && weight <= most && (tokens == 0 ==> weight == 0) && potential <= most * rest
    ensures weight + potential <= most * (tokens + rest)
  {
    if tokens == 1 {
      assert most * (1 + rest) == most + most * rest;
    }
  }

  /** Packets weigh no more than their requests at the given rank. */
  lemma {:induction false} WeighedByTokens(packets: seq<Packet>, most: nat)
    requires forall i | 0 <= i < |packets| :: Weight(packets[i]) <= most
    ensures Potential(packets) <= most * |TokensOf(packets)|
  {
    hide Weight, TokenOf;
    if packets != [] {
      var p, rest := packets[0], packets[1..];
      FirstAndRest(packets);
      OneToken(p);
      hide TokensOf, Potential;
      WeighedByTokens(rest, most);
      AddsUp(most, Weight(p), |TokenOf(p)|, Potential(rest), |TokensOf(rest)|);
    }
  }

  // ---------------------------------------------------------------- one handler

  /** A request of a manager that is sent to the platform by mistake is a new request there. */
  predicate Strays(p: Packet) {
    p.PlatformPipe? && IsRequest(p.message)
  }

  predicate Closer(p: Packet, outs: seq<Packet>) {
    forall i | 0 <= i < |outs| :: Weight(outs[i]) <= Rank(p)
  }

  lemma MovedIsCloser(cfg: Config, g: Registries, p: Packet, outs: seq<Packet>)
    requires MovesOnce(cfg, g, false, p, outs) && !Rearms(p)
    ensures Closer(p, outs)
  {
    hide Shape, Rank, TokenOf, Rearms;
    forall i | 0 <= i < |outs| ensures Weight(outs[i]) <= Rank(p) {
      assert Moves(cfg, g, false, p, outs[i]);
    }
  }

  lemma WritesAreCloser(cfg: Config, g: Registries, p: Packet, db: Answer, via: Id)
    requires p.PlatformWrite? || p.ManagerWrite? || p.DevicesResponse?
    ensures Closer(p, Outputs(cfg, g, p, db, via))
  {
    hide IsLocal, SessionOf, TransportOf, MetadataText;
    if p.DevicesResponse? && ResponseFromDevice(g, p.manager, p.message) != [] {
      StrippedFrame(p.message);
    }
  }

  lemma PipedIsCloser(cfg: Config, g: Registries, k: Key, to: Id, m: Fields, via: Id)
    requires !IsRequest(m)
    ensures Closer(PlatformPipe(k, to, m), ToPlatform(g, k, via, to, m))
  {
    var outs := ToPlatform(g, k, via, to, m);
    if outs != [] {
      var given := if "metadata" in m then m["metadata"].fields else map[];
      var metadata := if Contains(m, "transport") then given else given["transport" := Str(to)];
      MarkedFrame(m, metadata);
      assert outs == [AtPlatform(via, m["metadata" := Obj(metadata)])];
    }
  }

  lemma ControlIsCloser(g: Registries, link: Id, name: string, task: Task)
    ensures Closer(Control(link, name, task), ControlAnswers(g, link, name, task))
  {
    hide SerializeResponse, SerializeNotify, TokenOf;
  }

  lemma {:induction false} CopiesAreCloser(k: Key, m: Fields, ids: seq<Id>)
    requires NoId(m) && "metadata" in m && m["metadata"].Obj?
    ensures Closer(Emit(k, m), Copies(k, m, ids))
  {
    if ids != [] {
      CopiesAreCloser(k, m, ids[1..]);
      var metadata := m["metadata"].fields["transport" := Str(ids[0])];
      MarkedFrame(m, metadata);
      var first := ManagerWrite(k, ids[0], m["metadata" := Obj(metadata)]);
      assert Weight(first) == 0;
      hide Weight, Rank;
      assert Copies(k, m, ids) == [first] + Copies(k, m, ids[1..]);
    }
  }

  lemma EmittedIsCloser(g: Registries, k: Key, m: Fields)
    requires NoId(m)
    ensures Closer(Emit(k, m), EmitToSubscribers(g, k, m))
  {
    hide Copies, Closer;
    match MetadataText(m, "device-key")
    case None => NothingIsCloser(Emit(k, m));
    case Some(device) =>
      if (k, device) in g.subscribers {
        CopiesAreCloser(k, m, g.subscribers[(k, device)]);
      } else {
        NothingIsCloser(Emit(k, m));
      }
  }

  lemma DismissalIsCloser(cfg: Config, g: Registries, p: Packet, db: Answer)
    requires RegistriesOk(g, false) && Shape(cfg, g, false, p) && Dismisses(g, p, db) && !Rearms(p)
    ensures Closer(p, ServeOnPlatform(g, p.service, p.method_, p.task, db))
  {
    DismissalMoves(cfg, g, false, p.service, p.method_, p.task, db);
    hide Shape, ServeOnPlatform, Rank, TokenOf, Rearms, Dismisses;
  }

  lemma NothingIsCloser(p: Packet)
    ensures Closer(p, [])
  {
  }

  /** Every handler but the authentications brings a request closer to its answer. */
  lemma HandlingIsCloser(cfg: Config, g: Registries, p: Packet, db: Answer, via: Id)
    requires RegistriesOk(g, false) && Shape(cfg, g, false, p) && !Rearms(p) && !Strays(p)
    ensures Closer(p, Outputs(cfg, g, p, db, via))
  {
    hide Closer, RegistriesOk, ControlAnswers, ToPlatform, EmitToSubscribers, MovesOnce;
    if p.PlatformWrite? || p.ManagerWrite? || p.DevicesResponse? {
      hide Outputs, Shape, Rearms;
      WritesAreCloser(cfg, g, p, db, via);
    } else if p.Control? {
      hide Shape, Rearms;
      ControlIsCloser(g, p.link, p.method_, p.task);
    } else if p.Emit? {
      EmittedIsCloser(g, p.manager, p.message);
    } else if p.PlatformPipe? {
      hide Shape, Rearms;
      PipedIsCloser(cfg, g, p.manager, p.to, p.message, via);
    } else if p.PlatformCall? && Dismisses(g, p, db) {
      hide ServeOnPlatform, Shape, Rearms, Dismisses;
      DismissalIsCloser(cfg, g, p, db);
    } else {
      hide Outputs, Shape, Rearms, Strays, Dismisses;
      OthersMove(cfg, g, false, p, db, via);
      MovedIsCloser(cfg, g, p, Outputs(cfg, g, p, db, via));
    }
  }

  lemma WeightIsBounded(p: Packet)
    ensures Weight(p) <= LONGEST
  {
  }

  // ---------------------------------------------------------------- hops over whole runs

  /** How many deliveries of a run handled a packet with a request. */
  ghost function Hops(cfg: Config, s: State, steps: seq<Step>): nat
    decreases |steps|
  {
    if steps == [] then 0
    else
      var before, step := steps[..|steps| - 1], steps[|steps| - 1];
      var t := Run(cfg, s, before);
      Hops(cfg, s, before) + if Enabled(t, step) && TokenOf(t.flight[step.at]) != [] then 1 else 0
  }

  /** How many of them called an authentication. */
  ghost function Rearmed(cfg: Config, s: State, steps: seq<Step>): nat
    decreases |steps|
  {
    if steps == [] then 0
    else
      var before, step := steps[..|steps| - 1], steps[|steps| - 1];
      var t := Run(cfg, s, before);
      Rearmed(cfg, s, before) + if Enabled(t, step) && Rearms(t.flight[step.at]) then 1 else 0
  }

  function Hop(p: Packet): nat {
    if TokenOf(p) == [] then 0 else 1
  }

  function Rearming(p: Packet): nat {
    if Rearms(p) then 1 else 0
  }

  lemma SmallerBags(a: multiset<Token>, b: multiset<Token>)
    requires a <= b
    ensures |a| <= |b|
  {
    assert b == a + (b - a);
    assert |b| == |a| + |b - a|;
  }

  lemma WeighedByRank(p: Packet, outs: seq<Packet>)
    ensures Potential(outs) <= LONGEST * |TokensOf(outs)|
  {
    forall i | 0 <= i < |outs| ensures Weight(outs[i]) <= LONGEST {
      WeightIsBounded(outs[i]);
    }
    WeighedByTokens(outs, LONGEST);
  }

  /** A handler passes on at most the request of its packet and what strays. */
  lemma NoMoreTokens(cfg: Config, g: Registries, p: Packet, db: Answer, via: Id)
    requires RegistriesOk(g, false) && Shape(cfg, g, false, p)
    ensures var outs := Outputs(cfg, g, p, db, via);
            |TokensOf(outs)| <= |TokenOf(p)| + |Entered(p, outs)|
  {
    HandledAccounts(cfg, g, false, p, db, via);
    hide TokensOf, AnswersOf, TokenOf, Entered, Outputs, Written, Shape, RegistriesOk, AllShaped;
    var outs := Outputs(cfg, g, p, db, via);
    assert TokensOf(outs) <= multiset(TokenOf(p)) + Entered(p, outs);
    SmallerBags(TokensOf(outs), multiset(TokenOf(p)) + Entered(p, outs));
  }

  /** What a handler leaves to do for the request of its packet. */
  lemma HandlingWeighsLess(cfg: Config, g: Registries, p: Packet, db: Answer, via: Id)
    requires RegistriesOk(g, false) && Shape(cfg, g, false, p)
    ensures var outs := Outputs(cfg, g, p, db, via);
            Potential(outs) + Hop(p) <= Weight(p) + LONGEST * (Rearming(p) + |Entered(p, outs)|)
  {
    var outs := Outputs(cfg, g, p, db, via);
    NoMoreTokens(cfg, g, p, db, via);
    OneToken(p);
    WeighedByRank(p, outs);
    assert !Strays(p) ==> Entered(p, outs) == multiset{};
    assert Strays(p) ==> TokenOf(p) == [];
    if !Strays(p) && !Rearms(p) {
      HandlingIsCloser(cfg, g, p, db, via);
      WeighedByTokens(outs, Rank(p));
    }
    hide Outputs, TokensOf, TokenOf, RegistriesOk, Shape, Potential, Rearms, Rank, Entered, Strays, Closer;
    Rounded(Potential(outs), |TokensOf(outs)|, |TokenOf(p)|, Rank(p), |Entered(p, outs)|);
  }

  /** With at most one request a product is one of its factors or nothing. */
  lemma Rounded(potential: nat, passed: nat, tokens: nat, rank: nat, entered: nat)
    requires passed <= tokens + entered && tokens <= 1 && potential <= LONGEST * passed
    ensures entered == 0 && potential <= rank * passed ==> potential <= (if tokens == 0 then 0 else rank)
    ensures tokens == 0 ==> potential <= LONGEST * entered
    ensures tokens == 1 && entered == 0 ==> potential <= LONGEST
  {
    if passed == 1 {
      assert rank * passed == rank;
    }
  }

  lemma DeliveryLowersPotential(cfg: Config, s: State, step: Step)
    requires Inv(cfg, false, s) && Enabled(s, step)
    ensures var p, t := s.flight[step.at], Apply(cfg, s, step);
            && t.forged == s.forged
            && Potential(t.flight) + Hop(p) <=
               Potential(s.flight) + LONGEST * (Rearming(p) + |t.received| - |s.received|)
  {
    var at, p := step.at, s.flight[step.at];
    var outs := Outputs(cfg, s.g, p, step.db, step.via);
    HandlingWeighsLess(cfg, s.g, p, step.db, step.via);
    assert Apply(cfg, s, step).flight == s.flight[..at] + s.flight[at + 1..] + outs;
    hide Potential, Weight, Outputs, Inv, TokenOf, Entered, Rearming, Hop, Updated, Written, TokensOf, AnswersOf;
    PotentialJoins(s.flight[..at] + s.flight[at + 1..], outs);
    PotentialWithout(s.flight, at);
  }

  lemma OtherStepsPotential(cfg: Config, s: State, step: Step)
    requires !Enabled(s, step)
    ensures var t := Apply(cfg, s, step);
            Potential(t.flight) <= Potential(s.flight)
              + LONGEST * (|t.received| + |t.forged| - |s.received| - |s.forged|)
  {
    hide Potential, Enabled, Handled;
    if step.ClientSends? {
      ArrivalPotential(s, step.id, step.message);
    }
  }

  lemma ArrivalPotential(s: State, id: Id, m: Fields)
    ensures var t := Arrived(s, id, m);
            Potential(t.flight) <= Potential(s.flight)
              + LONGEST * (|t.received| + |t.forged| - |s.received| - |s.forged|)
  {
    hide Potential, Rank, TokenAt, TokenInside, IsRequest;
    var t := Arrived(s, id, m);
    if t.flight != s.flight {
      var p := t.flight[|s.flight|];
      WeightIsBounded(p);
      OneToken(p);
      assert t.flight == s.flight + [p];
      PotentialJoins(s.flight, [p]);
      PotentialOfOne(p);
      assert |t.received| + |t.forged| == |s.received| + |s.forged| + |TokenOf(p)|;
    }
  }

  /** Whatever clients send and databases answer, n requests with r calls of an authentication account for
      at most 34 (n + r) hops in all, those still to come included. */
  lemma {:induction false} HopsAreBounded(cfg: Config, steps: seq<Step>)
    ensures var s := Run(cfg, INITIAL, steps);
            Hops(cfg, INITIAL, steps) + Potential(s.flight) <=
            LONGEST * (|s.received| + |s.forged| + Rearmed(cfg, INITIAL, steps))
    decreases |steps|
  {
    if steps != [] {
      var before, step := steps[..|steps| - 1], steps[|steps| - 1];
      HopsAreBounded(cfg, before);
      InitialInv(cfg, false);
      RunKeepsInv(cfg, false, INITIAL, before);
      var s := Run(cfg, INITIAL, before);
      assert Run(cfg, INITIAL, steps) == Apply(cfg, s, step);
      hide Run, Apply, Potential, Inv, TokenOf, Enabled, Rearms;
      if Enabled(s, step) {
        assert step.Deliver? && step.at < |s.flight| by { EnabledIsThere(s, step); }
        DeliveryLowersPotential(cfg, s, step);
      } else {
        OtherStepsPotential(cfg, s, step);
      }
    }
  }

  // ---------------------------------------------------------------- who calls an authentication

  lemma TypedRearmsNot(cfg: Config, g: Registries, p: Packet)
    requires Typed(cfg, g, p)
    ensures !Rearms(p)
  {
    hide TaskOk;
  }

  lemma {:induction false} StrictRunsRearmNot(cfg: Config, steps: seq<Step>)
    requires StrictRun(cfg, INITIAL, steps)
    ensures Rearmed(cfg, INITIAL, steps) == 0
    decreases |steps|
  {
    if steps != [] {
      var before, step := steps[..|steps| - 1], steps[|steps| - 1];
      StrictRunsRearmNot(cfg, before);
      InitialInv(cfg, true);
      RunKeepsInv(cfg, true, INITIAL, before);
      var s := Run(cfg, INITIAL, before);
      hide Run, Rearms, StrictStep, Typed, Bare, Enabled, RegistriesOk, CleanFrames;
      if Enabled(s, step) {
        assert step.Deliver? && step.at < |s.flight| by { EnabledIsThere(s, step); }
        assert Shape(cfg, s.g, true, s.flight[step.at]);
        TypedRearmsNot(cfg, s.g, s.flight[step.at]);
      }
    }
  }

  /** With well-typed requests only, n requests have at most 34 n hops, so none circles. */
  lemma StrictHopsAreBounded(cfg: Config, steps: seq<Step>)
    requires StrictRun(cfg, INITIAL, steps)
    ensures var s := Run(cfg, INITIAL, steps);
            Hops(cfg, INITIAL, steps) <= LONGEST * (|s.received| + |s.forged|)
  {
    hide Run, Hops, Potential, Rearmed;
    StrictRunsRearmNot(cfg, steps);
    HopsAreBounded(cfg, steps);
  }
}
