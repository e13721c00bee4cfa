/** Answers and notifications on their way back: what a client is written is what a handler made of a request,
    word for word, or what a client claimed. */
module RelayAnswers {
  import opened JsonValue
  import opened JsonRpc
  import opened Options
  import opened Relay
  import opened RelayRun
  import opened RelayShape
  import opened RelayMessages
  import opened RelayHistory
  import opened RelayAuthority

  /** A frame that answers or notifies, for the session that a response is for. */
  datatype News = News(to: Option<Id>, body: Fields)

  function NewsOf(to: Option<Id>, m: Fields): Option<News> {
    if IsRequest(m) then None else Some(News(if IsResponse(m) then to else None, m - {"metadata"}))
  }

  /** The answer or the notification that a packet carries, if it carries one. */
  function Carried(p: Packet): Option<News> {
    match p
    case AtPlatform(_, m) => NewsOf(TransportOf(m), m)
    case ManagersResponse(m) => NewsOf(TransportOf(m), m)
    case PlatformWrite(to, m) => NewsOf(Some(to), m)
    case AtManager(_, _, m) => NewsOf(TransportOf(m), m)
    case DevicesResponse(_, m) => NewsOf(TransportOf(m), m)
    case DevicesNotify(_, m) => NewsOf(TransportOf(m), m)
    case Emit(_, m) => NewsOf(TransportOf(m), m)
    case ManagerWrite(_, to, m) => NewsOf(Some(to), m)
    case PlatformPipe(_, to, m) => NewsOf(Some(to), m)
    case DeviceWrite(_, to, m) => NewsOf(Some(to), m)
    case _ => None
  }

  /** The same words, for the same session if they are still for one. */
  predicate Same(made: News, carried: News) {
    made.body == carried.body && (carried.to.Some? ==> made.to == carried.to)
  }

  /** A handler that is given no answer puts this one in flight. */
  predicate Makes(p: Packet, outs: seq<Packet>, news: News) {
    Carried(p).None? && exists q | q in outs :: Carried(q).Some? && Same(Carried(q).value, news)
  }

  predicate Claims(step: Step, news: News) {
    && step.ClientSends?
    && match NewsOf(TransportOf(step.message), step.message)
       case None => false
       case Some(claimed) => Same(claimed, news)
  }

  /** A handler made this answer, or a client claimed it. */
  predicate Made(cfg: Config, steps: seq<Step>, news: News)
    decreases |steps|
  {
    && steps != []
    && var before, step := steps[..|steps| - 1], steps[|steps| - 1];
       || Claims(step, news)
       || (step.Deliver? && Last(cfg, steps).Some? &&
           Makes(Last(cfg, steps).value,
                 Outputs(cfg, Run(cfg, INITIAL, before).g, Last(cfg, steps).value, step.db, step.via), news))
       || Made(cfg, before, news)
  }

  // ---------------------------------------------------------------- no hop changes the words

  predicate Keeps(p: Packet, outs: seq<Packet>) {
    Carried(p).Some? ==> forall q | q in outs && Carried(q).Some? :: Same(Carried(p).value, Carried(q).value)
  }

  lemma ClientHopKeeps(cfg: Config, g: Registries, from: Id, to: Id, k: Key, m: Fields)
    ensures Keeps(AtPlatform(from, m), PlatformDispatcher(from, m))
    ensures Keeps(ManagersResponse(m), ResponseToClient(m))
    ensures Keeps(PlatformWrite(to, m), WriteAtPlatform(g, to, m))
  {
    hide ParseRequest, EnterPlatform;
    StrippedFrame(m);
  }

  lemma ManagerHopKeeps(cfg: Config, g: Registries, from: Id, to: Id, k: Key, m: Fields)
    ensures Keeps(AtManager(k, from, m), ManagerDispatcher(cfg, k, from, m))
    ensures Keeps(ManagerWrite(k, to, m), WriteAtManager(g, k, to, m))
  {
    hide ParseRequest, Split;
  }

  lemma DeviceHopKeeps(g: Registries, k: Key, m: Fields)
    ensures Keeps(DevicesResponse(k, m), ResponseFromDevice(g, k, m))
    ensures Keeps(DevicesNotify(k, m), NotifyFromDevice(g, k, m))
  {
    StrippedFrame(m);
  }

  lemma {:induction false} CopiesKeep(k: Key, m: Fields, ids: seq<Id>)
    requires NoId(m) && "metadata" in m && m["metadata"].Obj?
    ensures Keeps(Emit(k, m), Copies(k, m, ids))
  {
    if ids != [] {
      CopiesKeep(k, m, ids[1..]);
    }
  }

  lemma EmitKeeps(g: Registries, k: Key, m: Fields)
    requires NoId(m)
    ensures Keeps(Emit(k, m), EmitToSubscribers(g, k, m))
  {
    hide Keeps;
    NothingKept(Emit(k, m));
    if MetadataText(m, "device-key").Some? && (k, MetadataText(m, "device-key").value) in g.subscribers {
      CopiesKeep(k, m, g.subscribers[(k, MetadataText(m, "device-key").value)]);
    }
  }

  lemma NothingKept(p: Packet)
    ensures Keeps(p, [])
  {
  }

  lemma MarkedKeeps(m: Fields, metadata: Fields)
    ensures m["metadata" := Obj(metadata)] - {"metadata"} == m - {"metadata"}
  {
  }

  lemma PipeKeeps(g: Registries, k: Key, via: Id, to: Id, m: Fields)
    requires IsResponse(m) ==> "metadata" !in m
    ensures Keeps(PlatformPipe(k, to, m), ToPlatform(g, k, via, to, m))
  {
    var given := if "metadata" in m && m["metadata"].Obj? then m["metadata"].fields else map[];
    var metadata := if Contains(m, "transport") then given else given["transport" := Str(to)];
    MarkedFrame(m, metadata);
    MarkedKeeps(m, metadata);
  }

  lemma FromDeviceKeeps(cfg: Config, k: Key, device: Key, link: Id, to: Id, m: Fields)
    ensures Keeps(DeviceWrite(link, to, m), FromDevice(cfg, k, device, link, to, m))
  {
    var given := if "metadata" in m && m["metadata"].Obj? then m["metadata"].fields else map[];
    var metadata := given["transport" := Str(to)]["device-key" := Str(device)]
                       ["manager-key" := Str(k)]["user-key" := Str(cfg(k))];
    MarkedFrame(m, metadata);
    MarkedKeeps(m, metadata);
  }

  lemma HandledKeeps(cfg: Config, g: Registries, p: Packet, db: Answer, via: Id)
    requires Bare(p)
    ensures Keeps(p, Outputs(cfg, g, p, db, via))
  {
    hide PlatformDispatcher, ResponseToClient, FromPlatform, WriteAtPlatform, WriteAtManager, ToPlatform;
    hide ManagerDispatcher, FromDevice, ResponseFromDevice, NotifyFromDevice, EmitToSubscribers, Keeps;
    match p
    case AtPlatform(from, m) => ClientHopKeeps(cfg, g, from, from, "", m);
    case ManagersResponse(m) => ClientHopKeeps(cfg, g, "", "", "", m);
    case PlatformWrite(to, m) => ClientHopKeeps(cfg, g, to, to, "", m);
    case AtManager(k, from, m) => ManagerHopKeeps(cfg, g, from, from, k, m);
    case ManagerWrite(k, to, m) => ManagerHopKeeps(cfg, g, to, to, k, m);
    case DevicesResponse(k, m) => DeviceHopKeeps(g, k, m);
    case DevicesNotify(k, m) => DeviceHopKeeps(g, k, m);
    case Emit(k, m) => EmitKeeps(g, k, m);
    case PlatformPipe(k, to, m) => PipeKeeps(g, k, via, to, m);
    case DeviceWrite(link, to, m) =>
      NothingKept(p);
      match RoleOf(g, link) {
        case Some(DeviceLink(k, device)) => FromDeviceKeeps(cfg, k, device, link, to, m);
        case _ =>
      }
    case _ => WorkersCarryNothing(p, Outputs(cfg, g, p, db, via));
  }

  lemma WorkersCarryNothing(p: Packet, outs: seq<Packet>)
    requires Carried(p).None?
    ensures Keeps(p, outs)
  {
  }

  // ---------------------------------------------------------------- runs

  predicate Rests(cfg: Config, steps: seq<Step>, p: Packet) {
    Carried(p).Some? ==> Made(cfg, steps, Carried(p).value)
  }

  predicate FrameRests(cfg: Config, steps: seq<Step>, f: Frame) {
    !IsRequest(f.message) ==> Made(cfg, steps, NewsOf(Some(f.to), f.message).value)
  }

  lemma {:induction false} MadeOfSame(cfg: Config, steps: seq<Step>, a: News, b: News)
    requires Made(cfg, steps, a) && Same(a, b)
    ensures Made(cfg, steps, b)
    decreases |steps|
  {
    hide Run, Last, Outputs, Carried;
    var before, step := steps[..|steps| - 1], steps[|steps| - 1];
    if Made(cfg, before, a) {
      MadeOfSame(cfg, before, a, b);
    }
  }

  lemma MadeBefore(cfg: Config, steps: seq<Step>, news: News)
    requires steps != [] && Made(cfg, steps[..|steps| - 1], news)
    ensures Made(cfg, steps, news)
  {
    hide Run, Last, Outputs, Carried;
  }

  /** What comes out of a step rests on what happened. */
  lemma OutputsRest(cfg: Config, steps: seq<Step>, q: Packet)
    requires steps != [] && Last(cfg, steps).Some? && Rests(cfg, steps[..|steps| - 1], Last(cfg, steps).value)
    requires var step := steps[|steps| - 1];
             && step.Deliver?
             && q in Outputs(cfg, Run(cfg, INITIAL, steps[..|steps| - 1]).g, Last(cfg, steps).value, step.db, step.via)
    ensures Rests(cfg, steps, q)
  {
    var before, step, p := steps[..|steps| - 1], steps[|steps| - 1], Last(cfg, steps).value;
    var g := Run(cfg, INITIAL, before).g;
    ShapedInRuns(cfg, steps);
    HandledKeeps(cfg, g, p, step.db, step.via);
    hide Run, Last, Outputs, Carried, Typed, Bare, RegistriesOk;
    if Carried(q).Some? && Carried(p).Some? {
      MadeOfSame(cfg, before, Carried(p).value, Carried(q).value);
      MadeBefore(cfg, steps, Carried(q).value);
    }
  }

  lemma SentRests(cfg: Config, steps: seq<Step>, q: Packet)
    requires steps != [] && steps[|steps| - 1].ClientSends?
    requires var step := steps[|steps| - 1];
             q == AtPlatform(step.id, step.message) || exists k :: q == AtManager(k, step.id, step.message)
    ensures Rests(cfg, steps, q)
  {
    hide Run, Last, Outputs;
  }

  lemma FramesOfStep(cfg: Config, s: State, step: Step)
    ensures forall f | f in Apply(cfg, s, step).written ::
              f in s.written || (step.Deliver? && Enabled(s, step) &&
                                 (IsRequest(f.message) || Carried(s.flight[step.at]) == NewsOf(Some(f.to), f.message)))
  {
    hide Outputs, Updated, TokensOf, AnswersOf, TokenOf, TokenInside, TokenAt, Entered, Opened, LinkLive;
  }

  lemma RestsBefore(cfg: Config, steps: seq<Step>, q: Packet)
    requires steps != [] && Rests(cfg, steps[..|steps| - 1], q)
    ensures Rests(cfg, steps, q)
  {
    hide Made, Carried;
    if Carried(q).Some? {
      MadeBefore(cfg, steps, Carried(q).value);
    }
  }

  lemma FrameRestsBefore(cfg: Config, steps: seq<Step>, f: Frame)
    requires steps != []
    requires FrameRests(cfg, steps[..|steps| - 1], f)
          || exists p :: Rests(cfg, steps[..|steps| - 1], p) && Carried(p) == NewsOf(Some(f.to), f.message)
    ensures FrameRests(cfg, steps, f)
  {
    hide Made, Carried;
    if !IsRequest(f.message) {
      MadeBefore(cfg, steps, NewsOf(Some(f.to), f.message).value);
    }
  }

  /** What clients are written was made by a handler that worked on a request, or claimed by a client, word for
      word and for the same session; so is all that is still on its way. */
  lemma {:induction false} AnswersAreMade(cfg: Config, steps: seq<Step>)
    ensures forall f | f in Run(cfg, INITIAL, steps).written :: FrameRests(cfg, steps, f)
    ensures forall q | q in Run(cfg, INITIAL, steps).flight :: Rests(cfg, steps, q)
    decreases |steps|
  {
    if steps != [] {
      var before, step := steps[..|steps| - 1], steps[|steps| - 1];
      var s, t := Run(cfg, INITIAL, before), Run(cfg, INITIAL, steps);
      AnswersAreMade(cfg, before);
      RunLast(cfg, steps);
      FlightOfStep(cfg, s, step);
      FramesOfStep(cfg, s, step);
      hide Run, Apply, Last, Enabled, Outputs, Updated, Made, Rests, FrameRests, Carried, NewsOf;
      forall q | q in t.flight ensures Rests(cfg, steps, q) {
        if q in s.flight {
          RestsBefore(cfg, steps, q);
        } else if step.ClientSends? {
          SentRests(cfg, steps, q);
        } else {
          OutputsRest(cfg, steps, q);
        }
      }
      forall f | f in t.written ensures FrameRests(cfg, steps, f) {
        if f !in s.written {
          if IsRequest(f.message) {
            RequestsRest(cfg, steps, f);
          } else {
            var p := s.flight[step.at];
            assert p in s.flight && Rests(cfg, before, p);
            FrameRestsBefore(cfg, steps, f);
          }
        } else {
          FrameRestsBefore(cfg, steps, f);
        }
      }
    }
  }

  lemma RequestsRest(cfg: Config, steps: seq<Step>, f: Frame)
    requires IsRequest(f.message)
    ensures FrameRests(cfg, steps, f)
  {
  }
}
