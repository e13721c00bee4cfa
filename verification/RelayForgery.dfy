/** Whose word the relay takes for an answer: exactly which frames of clients make it answer somebody who
    never asked, and what its frames to clients carry. */
module RelayForgery {
  import opened JsonRpc
  import opened Options
  import opened Relay
  import opened RelayRun
  import opened RelayShape
  import opened RelayMessages
  import opened RelayInvariant

  /** Not a response, or one that names no session. */
  predicate AnswersNobody(m: Fields) {
    !IsResponse(m) || TransportOf(m).None?
  }

  /** Clients send what they like as long as it answers nobody, and they may send `m`. */
  predicate Sends(steps: seq<Step>, m: Fields) {
    forall i | 0 <= i < |steps| :: steps[i].ClientSends? ==> steps[i].message == m || AnswersNobody(steps[i].message)
  }

  lemma StepForgesNothing(cfg: Config, s: State, step: Step)
    requires step.ClientSends? ==> AnswersNobody(step.message)
    ensures Apply(cfg, s, step).forged == s.forged
  {
    hide Enabled, Updated, Outputs, Written, Entered, Opened;
  }

  lemma {:induction false} NothingForged(cfg: Config, steps: seq<Step>)
    requires forall i | 0 <= i < |steps| :: steps[i].ClientSends? ==> AnswersNobody(steps[i].message)
    ensures Run(cfg, INITIAL, steps).forged == multiset{}
    decreases |steps|
  {
    hide Apply, AnswersNobody;
    if steps != [] {
      var before, step := steps[..|steps| - 1], steps[|steps| - 1];
      NothingForged(cfg, before);
      StepForgesNothing(cfg, Run(cfg, INITIAL, before), step);
    }
  }

  /** Somebody else sends the frame, and it is written to the session it names. */
  function Forgery(a: Id, b: Id, m: Fields): seq<Step> {
    [Open(a, Client), Open(b, Client), ClientSends(a, m)] +
    [Deliver(0, Failed(""), "")] + [Deliver(0, Failed(""), "")] + [Deliver(0, Failed(""), "")]
  }

  /** The frame is with the router of the platform. */
  function Sent(a: Id, b: Id, m: Fields): State {
    var g := Opened(Opened(INITIAL.g, a, Client), b, Client);
    INITIAL.(g := g, flight := [AtPlatform(a, m)], forged := multiset(TokenInside(m)))
  }

  lemma SendsForgery(cfg: Config, a: Id, b: Id, m: Fields)
    requires a != b && !IsRequest(m)
    ensures Run(cfg, INITIAL, [Open(a, Client), Open(b, Client), ClientSends(a, m)]) == Sent(a, b, m)
  {
    hide Run, IsRequest, TokenInside;
    RunOfNone(cfg, INITIAL);
    OneMore(cfg, INITIAL, [], Open(a, Client));
    OneMore(cfg, INITIAL, [Open(a, Client)], Open(b, Client));
    OneMore(cfg, INITIAL, [Open(a, Client), Open(b, Client)], ClientSends(a, m));
    assert [] + [Open(a, Client)] == [Open(a, Client)];
    assert [Open(a, Client)] + [Open(b, Client)] == [Open(a, Client), Open(b, Client)];
    assert [Open(a, Client), Open(b, Client)] + [ClientSends(a, m)]
        == [Open(a, Client), Open(b, Client), ClientSends(a, m)];
  }

  lemma ForgedIsWritten(cfg: Config, a: Id, b: Id, m: Fields)
    requires a != b && IsResponse(m) && TransportOf(m) == Some(b)
    ensures var s := Run(cfg, INITIAL, Forgery(a, b, m));
            s.written == [Frame(b, m - {"metadata"})] && s.received == multiset{}
  {
    hide Run, TransportOf, Opened;
    SendsForgery(cfg, a, b, m);
    var g := Sent(a, b, m).g;
    assert SessionOf(g, b) == Some(Client) by { OpenedIsThere(Opened(INITIAL.g, a, Client), b, Client); }
    var steps := [Open(a, Client), Open(b, Client), ClientSends(a, m)];
    hide RoleOf, SessionOf;
    var next := Deliver(0, Failed(""), "");
    DeliverOnly(cfg, INITIAL, steps, AtPlatform(a, m), Failed(""), "");
    DeliverOnly(cfg, INITIAL, steps + [next], ManagersResponse(m), Failed(""), "");
    DeliverOnly(cfg, INITIAL, steps + [next] + [next], PlatformWrite(b, m - {"metadata"}), Failed(""), "");
  }

  lemma OpenedIsThere(g: Registries, id: Id, session: Session)
    ensures SessionOf(Opened(g, id, session), id) == Some(session)
  {
  }

  /** Answers go only to those who asked, whatever else clients send, if and only if the frame `m` is no
      response that names a session. Neither of the routers looks at who sent a response. */
  lemma AnswersOnlyAskersIff(cfg: Config, m: Fields)
    ensures (forall steps | Sends(steps, m) ::
               AnswersOf(Run(cfg, INITIAL, steps).written) <= Run(cfg, INITIAL, steps).received)
       <==> AnswersNobody(m)
  {
    if AnswersNobody(m) {
      forall steps | Sends(steps, m)
        ensures AnswersOf(Run(cfg, INITIAL, steps).written) <= Run(cfg, INITIAL, steps).received
      {
        NothingForged(cfg, steps);
        AnswersGoHome(cfg, steps);
        var s := Run(cfg, INITIAL, steps);
        hide Run, AnswersOf;
        assert s.received + multiset{} == s.received;
      }
    } else {
      var b := TransportOf(m).value;
      var a := b + "x";
      var steps := Forgery(a, b, m);
      assert Sends(steps, m);
      ForgedIsWritten(cfg, a, b, m);
      StrippedFrame(m);
      AnswerCounts([Frame(b, m - {"metadata"})], 0);
      hide Run, AnswersOf, Forgery, Sends;
      assert (b, (m - {"metadata"})["id"]) in AnswersOf(Run(cfg, INITIAL, steps).written);
    }
  }

  // ---------------------------------------------------------------- what clients are told

  predicate OwnClient(g: Registries, id: Id) {
    RoleOf(g, id).Some? && RoleOf(g, id).value.LocalClient?
  }

  /** With well-typed requests only, a client is written no request, and the profile key of a manager if and
      only if the frame is a notification to a client of that manager itself. */
  lemma ProfileKeyIff(cfg: Config, steps: seq<Step>, i: nat)
    requires StrictRun(cfg, INITIAL, steps) && i < |Run(cfg, INITIAL, steps).written|
    requires IsClient(Run(cfg, INITIAL, steps).g, Run(cfg, INITIAL, steps).written[i].to)
    ensures var s := Run(cfg, INITIAL, steps);
            var f := s.written[i];
            && !IsRequest(f.message)
            && (MetadataText(f.message, "user-key").Some? <==> OwnClient(s.g, f.to) && IsNotify(f.message))
            && (MetadataText(f.message, "user-key").Some? ==>
                  MetadataText(f.message, "user-key").value == cfg(RoleOf(s.g, f.to).value.manager))
  {
    InitialInv(cfg, true);
    RunKeepsInv(cfg, true, INITIAL, steps);
    hide Run, StrictRun, AllShaped, RegistriesOk, Conserved;
    assert CleanFrame(cfg, Run(cfg, INITIAL, steps).g, Run(cfg, INITIAL, steps).written[i]);
  }
}
