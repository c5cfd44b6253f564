/** A reference dispatcher for one device: it turns start, stop and erase
    requests from ff-core into driver commands, keeps the set of active
    combinable and rumble effects and the slot table of uncombinable
    effects, and is proved to send only command streams the protocol
    allows. */
module Dispatcher {
  import opened Wrappers
  import opened Effects
  import opened Commands
  import opened Protocol

  /** Per-device state: the ids of the active combinable effects, the ids
      of the active rumble effects, and the uncombinable slot table. */
  datatype Engine = Engine(combined: set<int>, rumbles: set<int>, slots: Slots)

  /** The state of a freshly registered device. */
  const Fresh: Engine := Engine({}, {}, map[])

  /** What ff-core asks of the layer for effect `id`: start (or update) it,
      stop it, or erase it. */
  datatype Request =
    | Play(id: int, effect: FfEffect)
    | Halt(id: int, effect: FfEffect)
    | Remove(id: int, effect: FfEffect)

  /** One request with the values that come from outside the model: what the
      driver answers if it receives an UPLOAD, and the net force and rumble
      the accumulator computes for the effects active after the request. */
  datatype Stimulus = Stimulus(req: Request, reply: int, net: SimpleForce, rumble: RumbleForce)

  /** What the start request reports back: a refused UPLOAD carries the
      driver's return value. */
  datatype Status = Done | Failed(code: int)

  datatype Reaction = Reaction(engine: Engine, events: seq<Event>, status: Status)

  /** A command whose return value the layer does not inspect. */
  function Sent(c: Command): Event
  {
    Event(c, 0)
  }

  /** The uncombinable effect a request addresses. */
  function UncombOf(x: Stimulus): UncombEffect
  {
    UncombEffect(x.req.id, x.req.effect)
  }

  /** The kinds of the commands in a stream, in order. */
  function Kinds(evs: seq<Event>): (ks: seq<Opcode>)
    ensures |ks| == |evs|
    ensures forall i :: 0 <= i < |evs| ==> ks[i] == OpcodeOf(evs[i].cmd)
  {
    seq(|evs|, i requires 0 <= i < |evs| => OpcodeOf(evs[i].cmd))
  }

  /** Recomputes the combined effect after a request for a combinable
      effect. */
  function CombinedReaction(e: Engine, x: Stimulus): Reaction
  {
    var id := x.req.id;
    if x.req.Play? then
      Reaction(e.(combined := e.combined + {id}), [Sent(StartCombined(x.net))], Done)
    else if id !in e.combined then
      Reaction(e, [], Done)
    else
      var rest := e.combined - {id};
      Reaction(e.(combined := rest),
        [if rest == {} then Sent(StopCombined(NoForce)) else Sent(StartCombined(x.net))], Done)
  }

  /** Recomputes the rumble after a request for a rumble effect. */
  function RumbleReaction(e: Engine, x: Stimulus): Reaction
  {
    var id := x.req.id;
    if x.req.Play? then
      Reaction(e.(rumbles := e.rumbles + {id}), [Sent(StartRumble(x.rumble))], Done)
    else if id !in e.rumbles then
      Reaction(e, [], Done)
    else
      var rest := e.rumbles - {id};
      Reaction(e.(rumbles := rest),
        [if rest == {} then Sent(StopRumble(NoRumble)) else Sent(StartRumble(x.rumble))], Done)
  }

  /** Drives the slot of an uncombinable effect: an effect that is not
      uploaded is uploaded before it starts, a stopped effect stays
      uploaded, and an erased effect is stopped first if it plays. */
  function UncombReaction(e: Engine, x: Stimulus): (r: Reaction)
    requires Classify(x.req.effect.kind) == Uncombinable
    // The commands sent are a valid continuation of the stream so far.
    ensures Replay(e.slots, r.events) == Some(r.engine.slots)
    // Only a start can fail, and only when the driver refuses the UPLOAD
    // of an effect that is not uploaded yet.
    ensures r.status.Failed? <==> x.req.Play? && x.req.id !in e.slots && x.reply != 0
  {
    var id := x.req.id;
    var u := UncombOf(x);
    match x.req
    case Play(_, _) =>
      if id in e.slots then
        Reaction(e.(slots := e.slots[id := Playing]), [Sent(StartUncomb(u))], Done)
      else if x.reply == 0 then
        ReplayTwo(e.slots, Event(UploadUncomb(u), x.reply), Sent(StartUncomb(u)));
        assert e.slots[id := Ready][id := Playing] == e.slots[id := Playing];
        Reaction(e.(slots := e.slots[id := Playing]),
          [Event(UploadUncomb(u), x.reply), Sent(StartUncomb(u))], Done)
      else
        ReplayOne(e.slots, Event(UploadUncomb(u), x.reply));
        assert e.slots - {id} == e.slots;
        Reaction(e, [Event(UploadUncomb(u), x.reply)], Failed(x.reply))
    case Halt(_, _) =>
      if Lookup(e.slots, id) == Some(Playing) then
        Reaction(e.(slots := e.slots[id := Ready]), [Sent(StopUncomb(u))], Done)
      else
        Reaction(e, [], Done)
    case Remove(_, _) =>
      match Lookup(e.slots, id)
      case Some(Playing) =>
        ReplayTwo(e.slots, Sent(StopUncomb(u)), Sent(EraseUncomb(u)));
        assert e.slots[id := Ready] - {id} == e.slots - {id};
        Reaction(e.(slots := e.slots - {id}), [Sent(StopUncomb(u)), Sent(EraseUncomb(u))], Done)
      case Some(Ready) =>
        Reaction(e.(slots := e.slots - {id}), [Sent(EraseUncomb(u))], Done)
      case None =>
        Reaction(e, [], Done)
  }

  /** What a request for an uncombinable effect sends, in which order, and
      what it does to the slot table. */
  lemma UncombRules(e: Engine, x: Stimulus)
    requires Classify(x.req.effect.kind) == Uncombinable
    // Only this effect's slot changes, and every command addresses it.
    ensures var r := UncombReaction(e, x);
      r.engine.combined == e.combined && r.engine.rumbles == e.rumbles
    ensures var r := UncombReaction(e, x);
      forall k :: k != x.req.id ==> Lookup(r.engine.slots, k) == Lookup(e.slots, k)
    ensures var r := UncombReaction(e, x);
      forall i :: 0 <= i < |r.events| ==>
      AddressesUncomb(r.events[i].cmd) && r.events[i].cmd.uncomb == UncombOf(x)
    ensures var r := UncombReaction(e, x);
      forall i :: 0 <= i < |r.events| && r.events[i].cmd.UploadUncomb? ==> r.events[i].ret == x.reply
    // A start uploads an effect that is not uploaded yet, and starts it
    // unless the driver refused the upload.
    ensures var r := UncombReaction(e, x);
      x.req.Play? ==>
      && Kinds(r.events) ==
           (if x.req.id in e.slots then [] else [OpUploadUncomb]) +
           (if r.status.Done? then [OpStartUncomb] else [])
      && (r.status.Failed? <==> x.req.id !in e.slots && x.reply != 0)
    // A stop stops a playing effect and sends nothing otherwise.
    ensures var r := UncombReaction(e, x);
      x.req.Halt? ==>
      Kinds(r.events) == (if Lookup(e.slots, x.req.id) == Some(Playing) then [OpStopUncomb] else [])
    // An erase stops a playing effect first, then erases an uploaded one.
    ensures var r := UncombReaction(e, x);
      x.req.Remove? ==>
      Kinds(r.events) ==
        (if Lookup(e.slots, x.req.id) == Some(Playing) then [OpStopUncomb] else []) +
        (if x.req.id in e.slots then [OpEraseUncomb] else [])
    ensures var r := UncombReaction(e, x);
      !x.req.Play? ==> r.status.Done?
  {
  }

  /** Handles one request: routes it by the effect's category and sends the
      resulting commands to the driver. */
  function Handle(e: Engine, x: Stimulus): (r: Reaction)
    // The commands sent are a valid continuation of the stream so far.
    ensures Replay(e.slots, r.events) == Some(r.engine.slots)
    // A start fails exactly when the driver refuses the UPLOAD of an effect
    // not yet uploaded; then nothing else is sent and nothing changes.
    ensures r.status.Failed? <==>
      x.req.Play? && Classify(x.req.effect.kind) == Uncombinable && x.req.id !in e.slots && x.reply != 0
    ensures r.status.Failed? ==>
      && r.status.code == x.reply
      && r.engine == e
      && r.events == [Event(UploadUncomb(UncombOf(x)), x.reply)]
  {
    match Classify(x.req.effect.kind)
    case Combinable => CombinedReaction(e, x)
    case RumbleMotors => RumbleReaction(e, x)
    case Uncombinable => UncombReaction(e, x)
  }

  /** What handling one request does to the device state and which commands
      it sends. */
  lemma HandleRules(e: Engine, x: Stimulus)
    // A request changes only the state of its own effect.
    ensures var r := Handle(e, x);
      r.engine.combined - {x.req.id} == e.combined - {x.req.id}
    ensures var r := Handle(e, x);
      r.engine.rumbles - {x.req.id} == e.rumbles - {x.req.id}
    ensures var r := Handle(e, x);
      forall k :: k != x.req.id ==> Lookup(r.engine.slots, k) == Lookup(e.slots, k)
    // ... and only the state of its own category.
    ensures var r := Handle(e, x);
      Classify(x.req.effect.kind) != Combinable ==> r.engine.combined == e.combined
    ensures var r := Handle(e, x);
      Classify(x.req.effect.kind) != RumbleMotors ==> r.engine.rumbles == e.rumbles
    ensures var r := Handle(e, x);
      Classify(x.req.effect.kind) != Uncombinable ==> r.engine.slots == e.slots
    // A start, or a stop of an active effect, sends exactly one command for
    // the combined effect: STOP_COMBINED with no force once none is
    // active, START_COMBINED with the accumulated force otherwise. A stop of
    // an inactive effect sends nothing.
    ensures var r := Handle(e, x);
      Classify(x.req.effect.kind) == Combinable ==>
      if x.req.Play? || x.req.id in e.combined then
        r.events == [Sent(if r.engine.combined == {} then StopCombined(NoForce) else StartCombined(x.net))]
      else
        r.events == [] && r.engine == e
    // The same rule for the rumble motors.
    ensures var r := Handle(e, x);
      Classify(x.req.effect.kind) == RumbleMotors ==>
      if x.req.Play? || x.req.id in e.rumbles then
        r.events == [Sent(if r.engine.rumbles == {} then StopRumble(NoRumble) else StartRumble(x.rumble))]
      else
        r.events == [] && r.engine == e
    // STOP_COMBINED / STOP_RUMBLE only when no effect of the class is active,
    // and whenever the last active one goes.
    ensures var r := Handle(e, x);
      forall i :: 0 <= i < |r.events| && r.events[i].cmd.StopCombined? ==> r.engine.combined == {}
    ensures var r := Handle(e, x);
      forall i :: 0 <= i < |r.events| && r.events[i].cmd.StopRumble? ==> r.engine.rumbles == {}
    ensures var r := Handle(e, x);
      e.combined != {} && r.engine.combined == {} ==>
      exists i :: 0 <= i < |r.events| && r.events[i].cmd.StopCombined?
    ensures var r := Handle(e, x);
      e.rumbles != {} && r.engine.rumbles == {} ==>
      exists i :: 0 <= i < |r.events| && r.events[i].cmd.StopRumble?
    // STOP_UNCOMB only for an effect that is playing.
    ensures var r := Handle(e, x);
      forall i :: 0 <= i < |r.events| && r.events[i].cmd.StopUncomb? ==>
      Lookup(e.slots, r.events[i].cmd.uncomb.id) == Some(Playing)
    // A successful start leaves the effect active.
    ensures var r := Handle(e, x);
      r.status.Done? && x.req.Play? ==>
      match Classify(x.req.effect.kind)
      case Combinable => x.req.id in r.engine.combined
      case RumbleMotors => x.req.id in r.engine.rumbles
      case Uncombinable => Lookup(r.engine.slots, x.req.id) == Some(Playing)
    // A stop leaves the effect inactive; an uncombinable one stays uploaded.
    ensures var r := Handle(e, x);
      x.req.Halt? ==>
      match Classify(x.req.effect.kind)
      case Combinable => x.req.id !in r.engine.combined
      case RumbleMotors => x.req.id !in r.engine.rumbles
      case Uncombinable =>
        && (x.req.id in r.engine.slots <==> x.req.id in e.slots)
        && Lookup(r.engine.slots, x.req.id) != Some(Playing)
    // An erase leaves an uncombinable effect not uploaded.
    ensures var r := Handle(e, x);
      x.req.Remove? && Classify(x.req.effect.kind) == Uncombinable ==> x.req.id !in r.engine.slots
  {
    if Classify(x.req.effect.kind) == Uncombinable {
      UncombRules(e, x);
    }
  }

  /** The state before request `i` of a run that started in `e` and has
      produced `log` so far. */
  function Prior(e: Engine, log: seq<Reaction>, i: nat): Engine
    requires i <= |log|
  {
    if i == 0 then e else log[i - 1].engine
  }

  /** The reactions to a sequence of requests handled in order, each in the
      state the previous one left. */
  function Run(e: Engine, xs: seq<Stimulus>): (log: seq<Reaction>)
    ensures |log| == |xs|
    decreases |xs|
  {
    if xs == [] then []
    else
      var init := Run(e, xs[..|xs| - 1]);
      init + [Handle(Prior(e, init, |init|), xs[|xs| - 1])]
  }

  /** Reaction `i` of a run is the reaction to request `i` in the state the
      reactions before it left. */
  lemma {:induction false} RunAt(e: Engine, xs: seq<Stimulus>)
    ensures forall i :: 0 <= i < |xs| ==> Run(e, xs)[i] == Handle(Prior(e, Run(e, xs), i), xs[i])
    decreases |xs|
  {
    if xs != [] {
      var p := xs[..|xs| - 1];
      var x := xs[|xs| - 1];
      assert xs == p + [x];
      RunAt(e, p);
      RunSnoc(e, p, x);
      var init := Run(e, p);
      var log := Run(e, xs);
      forall i | 0 <= i < |xs|
        ensures log[i] == Handle(Prior(e, log, i), xs[i])
      {
        if i < |init| {
          assert log[i] == init[i] && xs[i] == p[i];
          assert Prior(e, log, i) == Prior(e, init, i);
        }
      }
    }
  }

  /** Every command sent during a run, in order. */
  function Flatten(log: seq<Reaction>): seq<Event>
    decreases |log|
  {
    if log == [] then [] else Flatten(log[..|log| - 1]) + log[|log| - 1].events
  }

  /** Running one more request appends its reaction to the run. */
  lemma RunSnoc(e: Engine, xs: seq<Stimulus>, x: Stimulus)
    ensures Run(e, xs + [x]) == Run(e, xs) + [Handle(Prior(e, Run(e, xs), |xs|), x)]
  {
    assert (xs + [x])[..|xs|] == xs;
  }

  /** Flattening one more reaction appends its commands. */
  lemma FlattenSnoc(log: seq<Reaction>, r: Reaction)
    ensures Flatten(log + [r]) == Flatten(log) + r.events
  {
    assert (log + [r])[..|log|] == log;
  }

  /** The first n + 1 elements of a sequence are its first n and then
      element n. */
  lemma TakeOneMore<T>(s: seq<T>, n: nat)
    requires n < |s|
    ensures s[..n + 1] == s[..n] + [s[n]]
  {
  }

  /** Handling request `n` next extends the run, its command stream and its
      replay by that request's reaction. */
  lemma {:induction false} DispatchStep(start: Engine, xs: seq<Stimulus>, n: nat, log: seq<Reaction>, trace: seq<Event>, e: Engine)
    requires n < |xs| && log == Run(start, xs[..n]) && trace == Flatten(log)
    requires e == Prior(start, log, n) && Replay(start.slots, trace) == Some(e.slots)
    ensures var r := Handle(e, xs[n]);
      && log + [r] == Run(start, xs[..n + 1])
      && Flatten(log + [r]) == trace + r.events
      && r.engine == Prior(start, log + [r], n + 1)
      && Replay(start.slots, trace + r.events) == Some(r.engine.slots)
  {
    var r := Handle(e, xs[n]);
    ReplayAppend(start.slots, trace, r.events);
    TakeOneMore(xs, n);
    RunSnoc(start, xs[..n], xs[n]);
    FlattenSnoc(log, r);
  }

  /** Handles a sequence of requests on one device, in order, and returns
      the final state, every command sent and each request's reaction. */
  method Dispatch(start: Engine, xs: seq<Stimulus>) returns (e: Engine, trace: seq<Event>, log: seq<Reaction>)
    ensures log == Run(start, xs)
    ensures trace == Flatten(log)
    ensures e == Prior(start, log, |log|)
    ensures Replay(start.slots, trace) == Some(e.slots)
    ensures start == Fresh ==> ValidTrace(trace) && FollowsHeader(trace)
  {
    e := start;
    trace := [];
    log := [];
    var n := 0;
    while n < |xs|
      invariant n <= |xs|
      invariant log == Run(start, xs[..n])
      invariant trace == Flatten(log)
      invariant e == Prior(start, log, n)
      invariant Replay(start.slots, trace) == Some(e.slots)
    {
      DispatchStep(start, xs, n, log, trace, e);
      var r := Handle(e, xs[n]);
      log := log + [r];
      trace := trace + r.events;
      e := r.engine;
      n := n + 1;
    }
    assert xs[..n] == xs;
    if start == Fresh {
      assert start.slots == map[];
      ValidTraceFollowsHeader(trace);
    }
  }

  /** The rules one reaction keeps towards the state `before` it:
      STOP_COMBINED / STOP_RUMBLE only when no effect of the class is active
      afterwards, and whenever the last active one goes; failure exactly when
      the request starts an uncombinable effect that is not uploaded and the
      driver refuses the UPLOAD. */
  ghost predicate KeepsRules(before: Engine, x: Stimulus, r: Reaction)
  {
    && (forall i :: 0 <= i < |r.events| && r.events[i].cmd.StopCombined? ==> r.engine.combined == {})
    && (forall i :: 0 <= i < |r.events| && r.events[i].cmd.StopRumble? ==> r.engine.rumbles == {})
    && (before.combined != {} && r.engine.combined == {} ==>
          exists i :: 0 <= i < |r.events| && r.events[i].cmd.StopCombined?)
    && (before.rumbles != {} && r.engine.rumbles == {} ==>
          exists i :: 0 <= i < |r.events| && r.events[i].cmd.StopRumble?)
    && (r.status.Failed? <==>
          && x.req.Play?
          && Classify(x.req.effect.kind) == Uncombinable
          && x.req.id !in before.slots
          && x.reply != 0)
  }

  /** Over a whole run, every request's reaction keeps the rules towards the
      state the requests before it left. */
  lemma {:induction false} RunKeepsRules(start: Engine, xs: seq<Stimulus>)
    ensures forall i :: 0 <= i < |xs| ==>
      KeepsRules(Prior(start, Run(start, xs), i), xs[i], Run(start, xs)[i])
  {
    var log := Run(start, xs);
    RunAt(start, xs);
    forall i | 0 <= i < |xs|
      ensures KeepsRules(Prior(start, log, i), xs[i], log[i])
    {
      assert log[i] == Handle(Prior(start, log, i), xs[i]);
      HandleRules(Prior(start, log, i), xs[i]);
    }
  }
}
