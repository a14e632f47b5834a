/** Whole runs: requests, failures, crashes and restarts in any order (main.rs, sleep.rs, watcher.rs). */
module Daemon {
  import opened Outcomes
  import opened Proto
  import opened Layout
  import opened World
  import opened Effects
  import opened OutsideCalls
  import opened Courses
  import opened Strategy
  import opened Handler

  datatype Config = Config(outputReadyPolls: nat, disableOutputs: seq<string>, device: Option<string>,
                           extraAllowedModes: seq<Mode>) {
    function Settings(): Settings { Courses.Settings.Settings(outputReadyPolls, disableOutputs, device) }
  }

  datatype Event =
    | Ask(sender: Sender, request: Request)
    | SunshineExits
    | Sleep
    | Stop
    | Kill
    | Arrange(outputs: Screen)

  /** A daemon of this machine that is up and not in the middle of an operation. */
  ghost predicate IsUp(handler: RealHandler, outside: Outside, config: Config)
    reads handler, handler.strategy, outside
  {
    && handler.strategy.outside == outside && handler.extraAllowedModes == config.extraAllowedModes
    && handler.strategy.Configured() == config.Settings() && handler.strategy.Ready()
  }

  /** What the daemon, if there is one, remembers. */
  function Memory(handler: RealHandler?): Option<ConnectState>
    reads handler, if handler == null then {} else {handler.strategy}
  {
    if handler == null then None else handler.strategy.cache
  }

  /** What `run` does before it serves: an attempt to restore, whose failure is only logged. */
  method Start(outside: Outside, config: Config) returns (handler: RealHandler?)
    requires outside.Steady()
    modifies outside
    ensures outside.Steady() && outside.baseline == old(outside.baseline) && old(outside.trail) <= outside.trail
    ensures |outside.trail| > |old(outside.trail)|
    ensures var boot := outside.trail[|old(outside.trail)|]; boot.call.Boots? && boot.faults == old(outside.faults)
    ensures old(outside.breaks) <= outside.breaks && outside.faultsAtBoot == old(outside.faults) <= outside.faults
    ensures handler == null ==> outside.dead
    ensures handler != null ==> fresh(handler) && fresh(handler.strategy) && IsUp(handler, outside, config)
    ensures handler != null && outside.breaks == old(outside.breaks) ==> handler.strategy.Idle()
    ensures outside.faults == old(outside.faults) ==>
              && handler != null && handler.strategy.Idle()
              && ((handler.strategy.Restored() && handler.strategy.cache.None?)
                  || handler.strategy.Adopted(old(outside.world.journal)))
  {
    outside.Boot();
    var strategy := new KWinStrategy(outside, config.outputReadyPolls, config.disableOutputs, config.device);
    var restored, _ := strategy.Restore();
    if restored.Died? {
      return null;
    }
    handler := new RealHandler(strategy, config.extraAllowedModes);
  }

  // ---------------------------------------------------------------------------
  // What becomes of an event
  // ---------------------------------------------------------------------------

  /** The event makes a daemon with this in its memory call out. */
  predicate MakesCall(event: Event, config: Config, memory: Option<ConnectState>) {
    match event
    case Ask(sender, request) => CallsOut(request, sender.uid, config.extraAllowedModes, memory)
    case SunshineExits => memory.Some?
    case Sleep => memory.Some? && memory.value.phase.Connected?
    case Stop => memory.Some? && !memory.value.phase.Disconnected?
    case Kill => false
    case Arrange(_) => false
  }

  /** The call with which a daemon with this in its memory begins to serve the event. */
  predicate IsFirstCall(event: Event, memory: Option<ConnectState>, call: Call) {
    match event
    case Ask(sender, request) => StartsRequest(request, sender.uid, memory, call)
    case _ => StartsDisconnect(memory, call)
  }

  /**
   * A daemon may have this in its memory between two operations: the session of the journal, if there is a journal;
   * and, unless there have been more breaks than these, nothing only if nothing is left of any session.
   */
  predicate MayRemember(m: Moment, memory: Option<ConnectState>, breaks: nat) {
    if memory.Some? && m.world.journal.Some? then SameSession(m.world.journal.value, memory.value)
    else Clean(m.world, m.baseline) || (memory.None? && m.breaks > breaks)
  }

  /** The whole course of serving an event, with this in memory. */
  ghost predicate IsServed(t: seq<Moment>, t': seq<Moment>, event: Event, config: Config, memory: Option<ConnectState>,
                           d: Doing, answer: Option<Response>) {
    match event
    case Ask(sender, request) =>
      && answer.Some?
      && Answers(t, t', memory, config.Settings(), config.extraAllowedModes, sender.uid, request, d, answer.value)
    case Arrange(_) => false
    case _ =>
      if event.SunshineExits? || MakesCall(event, config, memory)
      then d.ToDisconnect? && Disconnects(t, t', memory, d.leaving, d.done)
      else t' == t
  }

  /** When an event was taken up, when it was over, and what was done and answered. */
  datatype Deed = Deed(at: nat, end: nat, doing: Doing, answer: Option<Response>)

  /**
   * What became of the ith event: the outputs are rearranged; or a daemon takes it up, with what it remembers, and
   * serves it or dies in doing so; or it finds no daemon, the one just started having died.
   */
  ghost predicate IsDeedOf(trail: seq<Moment>, e: Deed, event: Event, i: nat, config: Config, breaks: nat) {
    && e.at < e.end <= |trail|
    && match trail[e.at].call
       case Arranges => event.Arrange? && trail[e.at].world.outputs == event.outputs && e.end == e.at + 1
       case Takes(index, memory) =>
         && index == i && !event.Arrange? && MayRemember(trail[e.at], memory, breaks)
         && (MakesCall(event, config, memory) ==>
               e.at + 1 < e.end && IsFirstCall(event, memory, trail[e.at + 1].call))
         && (trail[e.end - 1].dead
             || IsServed(trail[..e.at + 1], trail[..e.end], event, config, memory, e.doing, e.answer))
       case Misses(index) => index == i && !event.Arrange? && e.at > 0 && trail[e.at - 1].dead && e.end == e.at + 1
       case _ => false
  }

  /** What became of the first events, one after the other, in a run that began with the nth moment. */
  ghost predicate AreDeeds(trail: seq<Moment>, n: nat, deeds: seq<Deed>, events: seq<Event>, config: Config) {
    && 0 < n <= |trail| && |deeds| <= |events|
    && (forall i | 0 <= i < |deeds| ::
          n <= deeds[i].at && IsDeedOf(trail, deeds[i], events[i], i, config, trail[n - 1].breaks))
    && forall i, j | 0 <= i < j < |deeds| :: deeds[i].end <= deeds[j].at
  }

  lemma DeedRemains(trail: seq<Moment>, later: seq<Moment>, e: Deed, event: Event, i: nat, config: Config, breaks: nat)
    requires IsDeedOf(trail, e, event, i, config, breaks) && trail <= later
    ensures IsDeedOf(later, e, event, i, config, breaks)
  {
    assert later[..e.at + 1] == trail[..e.at + 1] && later[..e.end] == trail[..e.end];
  }

  lemma DeedsRemain(trail: seq<Moment>, later: seq<Moment>, n: nat, deeds: seq<Deed>, events: seq<Event>,
                    config: Config)
    requires AreDeeds(trail, n, deeds, events, config) && trail <= later
    ensures AreDeeds(later, n, deeds, events, config)
  {
    var breaks := trail[n - 1].breaks;
    forall i | 0 <= i < |deeds|
      ensures n <= deeds[i].at && IsDeedOf(later, deeds[i], events[i], i, config, breaks)
    {
      DeedRemains(trail, later, deeds[i], events[i], i, config, breaks);
    }
  }

  lemma OneMoreDeed(trail: seq<Moment>, later: seq<Moment>, n: nat, deeds: seq<Deed>, events: seq<Event>,
                    config: Config, e: Deed)
    requires AreDeeds(trail, n, deeds, events, config) && trail <= later && |deeds| < |events|
    requires |trail| <= e.at && IsDeedOf(later, e, events[|deeds|], |deeds|, config, trail[n - 1].breaks)
    ensures AreDeeds(later, n, deeds + [e], events, config)
  {
    DeedsRemain(trail, later, n, deeds, events, config);
    forall i | 0 <= i < |deeds|
      ensures deeds[i].end <= e.at
    {
      assert IsDeedOf(trail, deeds[i], events[i], i, config, trail[n - 1].breaks);
    }
  }

  // ---------------------------------------------------------------------------
  // Two kinds of event a run stops before
  // ---------------------------------------------------------------------------

  /** With an empty memory there is something left of a session. */
  predicate Stranded(w: World, b: Baseline) { w.journal.Some? && !Clean(w, b) }

  /** A request that a stranded daemon would answer by taking its snapshot of a world that is not clean. */
  predicate Overwrites(w: World, b: Baseline, config: Config, memory: Option<ConnectState>, event: Event) {
    && event.Ask? && event.request.Connect? && !event.request.dryRun
    && ValidateRequest(event.request, config.extraAllowedModes).Ok?
    && memory.None? && Stranded(w, b)
  }

  /** Nothing of a session is left, and the daemon, if there is one, knows of none. */
  predicate IsAtRest(w: World, b: Baseline, memory: Option<ConnectState>) { memory.None? && Clean(w, b) }

  /**
   * A rearrangement that the journal or, without one, the memory does not know how to undo a session on: at rest, one
   * that a journal left behind does not remember; otherwise, one that unplugs an output of the baseline or
   * switches another one on.
   */
  predicate Misleads(w: World, b: Baseline, memory: Option<ConnectState>, event: Event) {
    && event.Arrange?
    && var on := Shown(event.outputs);
    if IsAtRest(w, b, memory) then w.journal.Some? && on != b
    else if w.journal.None? then on != b
    else !(b.Keys <= event.outputs.Keys && on.Keys <= b.Keys + {w.journal.value.port})
  }

  /** What the user has arranged is the baseline from then on, unless a session is under way. */
  function NextBaseline(w: World, b: Baseline, memory: Option<ConnectState>, outputs: Screen): Baseline {
    if IsAtRest(w, b, memory) then Shown(outputs) else b
  }

  /** A rearrangement misleads exactly if what is there then is not covered. */
  lemma MisleadsIff(w: World, b: Baseline, memory: Option<ConnectState>, event: Event)
    requires Covered(w, b) && event.Arrange? && Listable(event.outputs)
    ensures Misleads(w, b, memory, event)
            <==> !Covered(w.(outputs := event.outputs), NextBaseline(w, b, memory, event.outputs))
  {
    assert Sane(w, b);
  }

  /** A run goes no further than this event: it misleads, or it would overwrite the journal and there were breaks. */
  predicate Stops(w: World, b: Baseline, config: Config, memory: Option<ConnectState>, event: Event, broken: bool) {
    Misleads(w, b, memory, event) || (Overwrites(w, b, config, memory, event) && broken)
  }

  // ---------------------------------------------------------------------------
  // Serving
  // ---------------------------------------------------------------------------

  /**
   * One request, signal or the like at a running daemon; the result says whether it is still running.  It is
   * unless it was to end or has died in a call.
   */
  method Serve(outside: Outside, config: Config, handler: RealHandler, event: Event,
               ghost index: nat, ghost breaks: nat)
    returns (alive: bool, ghost e: Deed)
    requires IsUp(handler, outside, config) && !event.Arrange?
    requires handler.strategy.Idle() || outside.breaks > breaks
    requires !Overwrites(outside.world, outside.baseline, config, handler.strategy.cache, event)
    modifies outside, handler, handler.strategy
    ensures outside.Steady() && outside.Passed()
    ensures e.at == |old(outside.trail)| && e.end == |outside.trail|
    ensures IsDeedOf(outside.trail, e, event, index, config, breaks)
    ensures outside.trail[|old(outside.trail)|].call == Takes(index, old(handler.strategy.cache))
    ensures !alive ==> event.Stop? || event.Kill? || outside.dead
    ensures alive ==> IsUp(handler, outside, config)
    ensures alive && old(handler.strategy.Idle()) && outside.breaks == old(outside.breaks) ==> handler.strategy.Idle()
  {
    ghost var at, memory := |outside.trail|, handler.strategy.cache;
    outside.Take(index, handler.strategy.cache);
    ghost var taken := outside.trail;
    ghost var d, answer;
    alive, d, answer := Act(outside, config, handler, event);
    e := Deed(at, |outside.trail|, d, answer);
    assert outside.trail[..at + 1] == taken && outside.trail[..e.end] == outside.trail;
  }

  /** The event itself. */
  method Act(outside: Outside, config: Config, handler: RealHandler, event: Event)
    returns (alive: bool, ghost d: Doing, ghost answer: Option<Response>)
    requires IsUp(handler, outside, config) && !event.Arrange?
    requires !Overwrites(outside.world, outside.baseline, config, handler.strategy.cache, event)
    modifies outside, handler, handler.strategy
    ensures outside.Steady() && outside.Passed()
    ensures MakesCall(event, config, old(handler.strategy.cache)) ==>
              && |outside.trail| > |old(outside.trail)|
              && IsFirstCall(event, old(handler.strategy.cache), outside.trail[|old(outside.trail)|].call)
    ensures outside.dead
            || IsServed(old(outside.trail), outside.trail, event, config, old(handler.strategy.cache), d, answer)
    ensures !alive ==> event.Stop? || event.Kill? || outside.dead
    ensures alive ==> IsUp(handler, outside, config)
    ensures alive && old(handler.strategy.Idle()) && outside.breaks == old(outside.breaks) ==> handler.strategy.Idle()
  {
    d, answer := Nothing, None;
    match event
    case Ask(sender, request) =>
      var r;
      r, d := handler.Handle(sender, request);
      answer := if r.Lived? then Some(r.value) else None;
      alive := r.Lived?;
    case SunshineExits =>
      alive, d := Leave(outside, config, handler);
    case Sleep =>
      alive := true;
      var status := handler.strategy.Status();
      if status.connected {
        alive, d := Leave(outside, config, handler);
      }
    case Stop =>
      alive := false;
      var status := handler.strategy.Status();
      if status.phase != LifecyclePhase.Disconnected {
        var _, left := Leave(outside, config, handler);
        d := left;
      }
    case Kill =>
      alive := false;
  }

  /** A disconnect that nobody has asked for by a request. */
  method Leave(outside: Outside, config: Config, handler: RealHandler) returns (alive: bool, ghost d: Doing)
    requires IsUp(handler, outside, config)
    modifies outside, handler.strategy
    ensures outside.Steady() && outside.Passed()
    ensures old(handler.strategy.cache).Some? ==>
              && |outside.trail| > |old(outside.trail)|
              && StartsDisconnect(old(handler.strategy.cache), outside.trail[|old(outside.trail)|].call)
    ensures !alive ==> outside.dead
    ensures alive ==> d.ToDisconnect?
    ensures alive ==>
              Disconnects(old(outside.trail), outside.trail, old(handler.strategy.cache), d.leaving, d.done)
    ensures alive ==> IsUp(handler, outside, config)
    ensures alive && old(handler.strategy.Idle()) ==> handler.strategy.Idle()
  {
    var r;
    ghost var leaving;
    r, leaving := handler.strategy.Disconnect();
    alive := r.Lived?;
    d := ToDisconnect(leaving, if r.Lived? then r.value else Ok(()));
  }

  /**
   * One such event, with or without a daemon.  One is started if there is none; if that dies, the event is missed.
   * It is put off if it would overwrite the journal, which no daemon does that is not stranded.
   */
  method Meet(outside: Outside, config: Config, handler: RealHandler?, event: Event,
              ghost index: nat, ghost breaks: nat)
    returns (after: RealHandler?, putOff: bool, ghost e: Deed)
    requires outside.Steady() && !event.Arrange? && breaks <= outside.breaks
    requires handler != null ==> IsUp(handler, outside, config)
    requires handler != null && outside.breaks == breaks ==> handler.strategy.Idle()
    modifies outside, if handler == null then {} else {handler, handler.strategy}
    ensures outside.Steady() && old(outside.trail) <= outside.trail && old(outside.breaks) <= outside.breaks
    ensures after != null ==> IsUp(after, outside, config)
    ensures after != null && after != handler ==> fresh(after) && fresh(after.strategy)
    ensures putOff ==>
              && after != null && !after.strategy.Idle()
              && Overwrites(outside.world, outside.baseline, config, Memory(after), event)
    ensures !putOff ==> |old(outside.trail)| <= e.at && IsDeedOf(outside.trail, e, event, index, config, breaks)
    ensures after != null && outside.breaks == breaks ==> after.strategy.Idle()
  {
    after, putOff, e := handler, false, *;
    if after == null {
      after := Start(outside, config);
    }
    if after == null {
      e := Deed(|outside.trail|, |outside.trail| + 1, Nothing, None);
      outside.Miss(index);
    } else if Overwrites(outside.world, outside.baseline, config, after.strategy.cache, event) {
      putOff := true;
    } else {
      var alive;
      alive, e := Serve(outside, config, after, event, index, breaks);
      if !alive {
        after := null;
      }
    }
  }

  /** The user rearranges the monitors, whether or not a daemon is running. */
  method Rearrange(outside: Outside, config: Config, handler: RealHandler?, event: Event)
    requires outside.Steady() && event.Arrange? && Listable(event.outputs)
    requires handler != null ==> IsUp(handler, outside, config)
    requires !Misleads(outside.world, outside.baseline, Memory(handler), event)
    modifies outside
    ensures outside.Steady() && old(outside.trail) <= outside.trail && outside.breaks == old(outside.breaks)
    ensures |outside.trail| == |old(outside.trail)| + 1
    ensures var last := outside.trail[|old(outside.trail)|];
            last.call.Arranges? && last.world.outputs == event.outputs
    ensures outside.world == old(outside.world).(outputs := event.outputs)
    ensures outside.baseline == old(NextBaseline(outside.world, outside.baseline, Memory(handler), event.outputs))
    ensures handler != null ==> IsUp(handler, outside, config)
    ensures handler != null && old(handler.strategy.Idle()) ==> handler.strategy.Idle()
  {
    MisleadsIff(outside.world, outside.baseline, Memory(handler), event);
    outside.Arrange(event.outputs, NextBaseline(outside.world, outside.baseline, Memory(handler), event.outputs));
  }

  /**
   * Safety over whole runs: whatever is asked, whatever fails and whenever the daemon dies and is started
   * again, the write-ahead invariant holds at every moment.  The events are served one after the other, and all of
   * them, unless the user rearranges the monitors behind the back of a session or of a journal or, and only after
   * the journal has been refused or a recovery record lost with an empty memory, a connect would overwrite the journal.
   */
  method Run(outside: Outside, config: Config, events: seq<Event>)
    returns (served: nat, handler: RealHandler?, ghost deeds: seq<Deed>)
    requires outside.Steady() && forall e | e in events && e.Arrange? :: Listable(e.outputs)
    modifies outside
    ensures outside.Steady() && old(outside.trail) <= outside.trail && old(outside.breaks) <= outside.breaks
    ensures IsSafe(outside.trail)
    ensures served == |deeds| && AreDeeds(outside.trail, |old(outside.trail)|, deeds, events, config)
    ensures served < |events| ==>
              Stops(outside.world, outside.baseline, config, Memory(handler), events[served],
                    outside.breaks > old(outside.breaks))
  {
    handler, deeds := null, [];
    served := 0;
    ghost var n := |outside.trail|;
    while served < |events|
      invariant served == |deeds| && AreDeeds(outside.trail, n, deeds, events, config)
      invariant outside.Steady() && old(outside.trail) <= outside.trail && old(outside.breaks) <= outside.breaks
      invariant handler != null ==> fresh(handler) && fresh(handler.strategy) && IsUp(handler, outside, config)
      invariant handler != null && outside.breaks == old(outside.breaks) ==> handler.strategy.Idle()
    {
      var event := events[served];
      ghost var before, e := outside.trail, Deed(|outside.trail|, |outside.trail| + 1, Nothing, None);
      if event.Arrange? {
        if Misleads(outside.world, outside.baseline, Memory(handler), event) {
          return;
        }
        Rearrange(outside, config, handler, event);
      } else {
        var putOff;
        handler, putOff, e := Meet(outside, config, handler, event, served, old(outside.breaks));
        if putOff {
          DeedsRemain(before, outside.trail, n, deeds, events, config);
          return;
        }
      }
      OneMoreDeed(before, outside.trail, n, deeds, events, config, e);
      deeds := deeds + [e];
      served := served + 1;
    }
  }

  /**
   * Recovery: after any such run, wherever it left the world, if no call fails from the next start on, that
   * start brings the baseline back and leaves nothing of any session, or takes over the live one.
   */
  method RunThenRecover(outside: Outside, config: Config, events: seq<Event>)
    returns (served: nat, handler: RealHandler?, ghost deeds: seq<Deed>, ghost memory: Option<ConnectState>,
             ghost boot: nat)
    requires outside.Steady() && forall e | e in events && e.Arrange? :: Listable(e.outputs)
    modifies outside
    ensures outside.Steady() && old(outside.trail) <= outside.trail
    ensures |old(outside.trail)| <= boot < |outside.trail| && outside.trail[boot].call.Boots?
    ensures served == |deeds| && AreDeeds(outside.trail[..boot], |old(outside.trail)|, deeds, events, config)
    ensures served < |events| ==>
              var m := outside.trail[boot - 1];
              Stops(m.world, m.baseline, config, memory, events[served], m.breaks > old(outside.breaks))
    ensures outside.faults == outside.trail[boot].faults ==>
              && handler != null && handler.strategy.outside == outside
              && ((handler.strategy.Restored() && handler.strategy.cache.None?)
                  || handler.strategy.Adopted(outside.world.journal))
  {
    served, handler, deeds := Run(outside, config, events);
    ghost var before := outside.trail;
    memory, boot := Memory(handler), |before|;
    handler := Start(outside, config);
    assert outside.trail[..boot] == before;
  }
}
