/** The display strategy: connect, disconnect, restore and their rollback (strategy/kwin/mod.rs). */
module Strategy {
  import opened Outcomes
  import opened Proto
  import opened KScreen
  import opened Layout
  import opened World
  import opened Telling
  import opened Waiting
  import opened Effects
  import opened OutsideCalls
  import opened Compositor
  import opened Cards
  import opened Courses
  import Bits
  import Edid
  import Sysfs

  datatype StrategyStatus = StrategyStatus(phase: LifecyclePhase, connected: bool, session: Option<(Slot, Mode)>)

  function ToSet(names: seq<string>): set<string> { set n | n in names }

  function Less(names: set<string>, off: seq<string>): set<string> { names - ToSet(off) }

  lemma {:induction false} IsEnabledIff(layout: seq<OutputInfo>, slot: string, n: string)
    ensures n in EnabledExcept(layout, slot) <==> n in Target(layout) && n != slot
  {
    if layout != [] {
      IsEnabledIff(layout[..|layout| - 1], slot, n);
    }
  }

  lemma EnabledAreTarget(layout: seq<OutputInfo>, slot: string)
    ensures ToSet(EnabledExcept(layout, slot)) == Target(layout).Keys - {slot}
  {
    forall n
      ensures n in EnabledExcept(layout, slot) <==> n in Target(layout) && n != slot
    {
      IsEnabledIff(layout, slot, n);
    }
  }

  /** Two records of one session: they differ at most in the phase, the mode and the owner. */
  predicate SameSession(a: ConnectState, b: ConnectState) { a.At() == b.At() && a.layout == b.layout }

  function PhaseOf(s: Option<ConnectState>): Option<LifecyclePhase> {
    if s.None? then None else Some(s.value.phase)
  }

  // ---------------------------------------------------------------------------
  // Phases over a daemon's lifetime
  // ---------------------------------------------------------------------------

  /**
   * A write to the daemon's memory: the phase written, whether the world was clean then, and whether a
   * session to be recovered was written over a journal that says connected.
   */
  datatype CacheEvent = CacheEvent(phase: Option<LifecyclePhase>, clean: bool, revivable: bool)

  predicate IsRevivable(memory: Option<ConnectState>, journal: Option<ConnectState>) {
    && memory.Some? && memory.value.phase.RecoveryRequired?
    && journal.Some? && journal.value.phase.Connected?
  }

  /** Which write may follow which. */
  predicate Follows(a: CacheEvent, b: CacheEvent) {
    match b.phase
    case None => b.clean
    case Some(Connecting) => a.phase.None?
    case Some(Connected) =>
      || a.phase in {None, Some(LifecyclePhase.Connecting), Some(LifecyclePhase.Connected)}
      || (a.phase == Some(LifecyclePhase.RecoveryRequired) && a.revivable)
    case Some(Disconnecting) => a.phase.Some?
    case Some(RecoveryRequired) => b.revivable ==> a.phase == Some(LifecyclePhase.Connecting)
    case Some(Disconnected) => false
  }

  /** The writes of a daemon that started with an empty memory. */
  ghost predicate Lawful(events: seq<CacheEvent>) {
    && events != [] && events[0].phase.None?
    && forall i {:trigger events[i]} | 0 < i < |events| :: Follows(events[i - 1], events[i])
  }

  ghost predicate IsCleanup(e: CacheEvent) { e.phase.None? && e.clean }

  /** A record leads to a new session only by way of a completed cleanup. */
  lemma CleanupBetweenSessions(events: seq<CacheEvent>, i: nat, j: nat)
    requires Lawful(events) && i < j < |events|
    requires events[i].phase.Some? && events[j].phase == Some(LifecyclePhase.Connecting)
    ensures exists k :: i < k < j && IsCleanup(events[k])
  {
    assert Follows(events[j - 1], events[j]);
    assert i < j - 1 && IsCleanup(events[j - 1]) by {
      assert Follows(events[j - 2], events[j - 1]);
    }
  }

  /** A session that is being taken down, or whose recovery is in the journal too. */
  predicate IsGoing(e: CacheEvent) {
    || e.phase == Some(LifecyclePhase.Disconnecting)
    || (e.phase == Some(LifecyclePhase.RecoveryRequired) && !e.revivable)
  }

  /** Whatever the saves do: such a session is never taken for connected again without a completed cleanup. */
  lemma {:induction false} NeverBackToConnected(events: seq<CacheEvent>, i: nat, j: nat)
    requires Lawful(events) && i < j < |events|
    requires IsGoing(events[i]) && events[j].phase == Some(LifecyclePhase.Connected)
    ensures exists k :: i < k < j && IsCleanup(events[k])
  {
    var before := events[j - 1];
    assert Follows(before, events[j]);
    assert j - 1 > i && Follows(events[j - 2], before);
    if before.phase == Some(LifecyclePhase.Connected) {
      NeverBackToConnected(events, i, j - 1);
    } else if before.phase == Some(LifecyclePhase.Connecting) {
      CleanupBetweenSessions(events, i, j - 1);
    } else if before.phase == Some(LifecyclePhase.RecoveryRequired) {
      CleanupBetweenSessions(events, i, j - 2);
    } else {
      assert IsCleanup(before);
    }
  }

  /** Where this output is shown, if it is on. */
  function PlaceOf(s: Screen, port: string): Option<Pos> {
    if port in s && s[port].enabled then Some(Pos(s[port].x, s[port].y)) else None
  }

  /** If it was there, the output was put at the place for it by the listing that was taken just before. */
  ghost predicate IsPlaced(listing: Moment, shown: Moment, s: Screen, port: string) {
    && listing.call.Lists?
    && (port in shown.world.outputs ==> PlaceOf(s, port) == Some(Pos(PlaceFor(listing.call, port), 0)))
  }

  /** The output is at the place for it by the listing that an attempt began to show it with. */
  ghost predicate IsInPlace(a: Attempt, s: Screen, port: string) {
    |a.awaited| + 2 < |a.shown| && IsPlaced(a.shown[|a.awaited|], a.shown[|a.awaited| + 2], s, port)
  }

  // ---------------------------------------------------------------------------
  // The strategy
  // ---------------------------------------------------------------------------

  class KWinStrategy {
    const outside: Outside
    /** How often the outputs can be listed before the wait for the virtual one is given up. */
    const outputReadyPolls: nat
    const disableOutputs: seq<string>
    const defaultDevice: Option<string>
    var cache: Option<ConnectState>
    ghost var phases: seq<CacheEvent>

    constructor (outside: Outside, outputReadyPolls: nat, disableOutputs: seq<string>, defaultDevice: Option<string>)
      ensures this.outside == outside && this.outputReadyPolls == outputReadyPolls
      ensures this.disableOutputs == disableOutputs && this.defaultDevice == defaultDevice
      ensures cache.None? && (outside.Steady() ==> Ready())
    {
      this.outside, this.outputReadyPolls := outside, outputReadyPolls;
      this.disableOutputs, this.defaultDevice := disableOutputs, defaultDevice;
      cache, phases := None, [CacheEvent(None, false, false)];
    }

    /** What was configured. */
    function Configured(): Settings { Settings(outputReadyPolls, disableOutputs, defaultDevice) }

    /** The writes to memory so far, the last of which is still there. */
    ghost predicate Remembers()
      reads this
    {
      Lawful(phases) && phases[|phases| - 1].phase == PhaseOf(cache)
    }

    /** The record in memory is that of the session on which the journal, if any, is written. */
    ghost predicate Knows(c: ConnectState)
      reads this, outside
    {
      && c.phase in {LifecyclePhase.Connected, LifecyclePhase.Disconnecting, LifecyclePhase.RecoveryRequired}
      && Recoverable(outside.world, c, outside.baseline)
      && match outside.world.journal
         case None => Clean(outside.world, outside.baseline)
         case Some(j) =>
           && SameSession(j, c)
           && (j.phase.Connected? && !c.phase.Connected? ==>
                 c.phase.RecoveryRequired? && phases != [] && phases[|phases| - 1].revivable)
    }

    /** Between two operations. */
    ghost predicate Ready()
      reads this, outside
    {
      outside.Steady() && Remembers() && (cache.Some? ==> Knows(cache.value))
    }

    /** Ready, and not stranded: with nothing in memory there is nothing left of a session. */
    ghost predicate Idle()
      reads this, outside
    {
      Ready() && (cache.None? ==> Clean(outside.world, outside.baseline))
    }

    /** The write that is made to memory now. */
    ghost function Event(s: Option<ConnectState>): CacheEvent
      reads outside
    {
      CacheEvent(PhaseOf(s), Clean(outside.world, outside.baseline), IsRevivable(s, outside.world.journal))
    }

    method Cache(s: Option<ConnectState>)
      modifies this
      ensures cache == s && phases == old(phases) + [Event(s)]
    {
      cache := s;
      phases := phases + [Event(s)];
    }

    /** `list_outputs` and `parse_outputs`. */
    method TakeSnapshot(env: KWinEnv) returns (r: Outcome<seq<OutputInfo>>)
      requires outside.Steady()
      modifies outside
      ensures r.Died? ==> outside.Perished()
      ensures outside.Kept()
      ensures |outside.trail| == |old(outside.trail)| + 1 && Last(outside.trail).call.Lists?
      ensures var call := Last(outside.trail).call;
              && (r.Lived? <==> call.listed.Lived?)
              && (r.Lived? ==>
                    r.value
                    == if call.listed.value.Ok? then Ok(call.reading.outputs) else Err(call.listed.value.error))
      ensures Succeeded(r) ==> IsSnapshot(r.value.value, outside.world.outputs)
      ensures outside.faults == old(outside.faults) + if Succeeded(r) then 0 else 1
    {
      var listed :- outside.ListOutputs(env);
      if listed.Err? {
        return Lived(Err(listed.error));
      }
      ListingTells(listed.value, outside.world.outputs);
      var layout := ParseOutputs(listed.value);
      r := Lived(Ok(layout));
    }

    // Cleaning up ---------------------------------------------------------------

    /** The record is that of the session on which the journal is written. */
    ghost predicate InJournal(state: ConnectState)
      reads outside
    {
      outside.world.journal.Some? && SameSession(outside.world.journal.value, state)
    }

    method RestoreLayout(state: ConnectState, env: KWinEnv) returns (r: Outcome<()>, ghost first: Outcome<()>)
      requires outside.Steady() && InJournal(state)
      modifies outside
      ensures r.Died? ==> outside.Perished()
      ensures outside.Worked()
      ensures r.Lived? ==>
                var n, args := |old(outside.trail)|, RestoreArgs(state.layout, state.port);
                && |outside.trail| == n + 2
                && outside.trail[n].call == Runs(args, first) && outside.trail[n + 1].call == Runs(args, r)
      ensures Succeeded(r) ==> Shown(outside.world.outputs) == outside.baseline
      ensures outside.faults == old(outside.faults) ==> Succeeded(r)
    {
      var args := BuildRestoreArgs(state.layout, state.port);
      PhysicalArgsLight(state.layout, state.port);
      ghost var names := outside.baseline.Keys + {state.port};
      assert LightsOnly(args, names);
      r, first := RunTwice(outside, env, args);
      if Succeeded(r) {
        ghost var between :| RanTwice(old(outside.world.outputs), args, between, outside.world.outputs);
        RunningLightsOnly(old(outside.world.outputs), args, between, names);
        RestoreRunSettles(between, state.layout, state.port, outside.world.outputs);
      }
    }

    method SwitchOff(state: ConnectState) returns (r: Outcome<()>)
      requires outside.Steady() && InJournal(state)
      modifies outside
      ensures r.Died? ==> outside.Perished()
      ensures outside.Steady() && outside.Advanced()
      ensures outside.trail == old(outside.trail) + [outside.Now(Sets(state.At(), false, r))]
      ensures outside.faults == old(outside.faults) + if Succeeded(r) then 0 else 1
      ensures outside.world == old(outside.world).(outputs := outside.world.outputs, forced := outside.world.forced)
      ensures Succeeded(r) ==> outside.world.forced == {}
      ensures old(Shown(outside.world.outputs)) == outside.baseline ==> Shown(outside.world.outputs) == outside.baseline
    {
      r := outside.SetConnectorStatus(state.At(), false);
      if old(Shown(outside.world.outputs)) == outside.baseline && outside.world != old(outside.world) {
        UnpluggingKeeps(old(outside.world.outputs), state.port, outside.world.outputs);
      }
    }

    method ClearOverride(state: ConnectState) returns (r: Outcome<()>)
      requires outside.Steady() && InJournal(state)
      modifies outside
      ensures r.Died? ==> outside.Perished()
      ensures outside.Steady() && outside.Advanced()
      ensures outside.trail == old(outside.trail) + [outside.Now(Clears(state.At(), r))]
      ensures outside.faults == old(outside.faults) + if Succeeded(r) then 0 else 1
      ensures outside.world == old(outside.world).(edid := outside.world.edid)
      ensures Succeeded(r) ==> outside.world.edid == map[]
    {
      r := outside.ClearEdidOverride(state.At());
    }

    /** Replaces the journal by a record that can undo whatever is left. */
    method SaveJournal(s: ConnectState, ghost remembered: bool) returns (r: Outcome<()>)
      requires outside.Steady() && Recoverable(outside.world, s, outside.baseline)
      modifies outside
      ensures r.Died? ==> outside.Perished()
      ensures outside.Steady() && outside.Passed()
      ensures outside.trail == old(outside.trail) + [outside.Now(Saves(s, remembered, r))]
      ensures outside.faults == old(outside.faults) + if Succeeded(r) then 0 else 1
      ensures outside.breaks == old(outside.breaks) + if Saves(s, remembered, r).IsBreak() then 1 else 0
      ensures (outside.world == old(outside.world) && !Succeeded(r))
              || outside.world == old(outside.world).(journal := Some(s))
    {
      r := outside.Save(s, remembered);
    }

    /** What the journal says, or an error. */
    method LoadJournal(ghost remembered: bool) returns (r: Outcome<Option<ConnectState>>)
      requires outside.Steady()
      modifies outside
      ensures r.Died? ==> outside.Perished()
      ensures outside.Steady() && outside.Passed() && outside.world == old(outside.world)
      ensures outside.trail == old(outside.trail) + [outside.Now(Loads(remembered, r))]
      ensures Succeeded(r) ==> r.value.value == outside.world.journal
      ensures outside.faults == old(outside.faults) + if Succeeded(r) then 0 else 1
      ensures outside.breaks == old(outside.breaks) + if Loads(remembered, r).IsBreak() then 1 else 0
    {
      r := outside.Load(remembered);
    }

    /** Deletes the journal when it is no longer needed. */
    method DeleteJournal() returns (r: Outcome<()>)
      requires outside.Steady() && Clean(outside.world, outside.baseline)
      modifies outside
      ensures r.Died? ==> outside.Perished()
      ensures outside.Steady() && outside.Advanced()
      ensures outside.trail == old(outside.trail) + [outside.Now(Deletes(r))]
      ensures outside.faults == old(outside.faults) + if Succeeded(r) then 0 else 1
      ensures (outside.world == old(outside.world) && !Succeeded(r))
              || outside.world == old(outside.world).(journal := None)
    {
      r := outside.Delete();
    }

    /** The steps of a cleanup that need no compositor; the second is tried even if the first has failed. */
    method CleanKernel(state: ConnectState) returns (off: Outcome<()>, cleared: Outcome<()>)
      requires outside.Steady() && InJournal(state)
      modifies outside
      ensures cleared.Died? ==> outside.Perished()
      ensures outside.Steady() && outside.Advanced() && outside.world.journal == old(outside.world.journal)
      ensures cleared.Lived? ==>
                var n := |old(outside.trail)|;
                && off.Lived? && |outside.trail| == n + 2
                && outside.trail[n].call == Sets(state.At(), false, off)
                && outside.trail[n + 1].call == Clears(state.At(), cleared)
      ensures cleared.Lived? && Succeeded(off) ==> outside.world.forced == {}
      ensures Succeeded(cleared) ==> outside.world.edid == map[]
      ensures old(Shown(outside.world.outputs)) == outside.baseline ==> Shown(outside.world.outputs) == outside.baseline
      ensures outside.faults == old(outside.faults) ==> Succeeded(off) && Succeeded(cleared)
    {
      cleared := Died;
      off := SwitchOff(state);
      if off.Lived? {
        cleared := ClearOverride(state);
      }
    }

    /** The step of a cleanup that needs a compositor: without one it fails without a call. */
    method CleanScreen(state: ConnectState, env: Option<KWinEnv>)
      returns (r: Outcome<()>, ghost first: Outcome<()>, ghost second: Outcome<()>)
      requires outside.Steady() && InJournal(state)
      modifies outside
      ensures r.Died? ==> outside.Perished()
      ensures outside.Worked()
      ensures env.None? ==> r == Lived(Err(CompositorNotFound)) && outside.trail == old(outside.trail)
      ensures env.Some? ==> second == r
      ensures r.Lived? && env.Some? ==> |outside.trail| == |old(outside.trail)| + 2
      ensures r.Lived? && env.Some? ==>
                var n, args := |old(outside.trail)|, RestoreArgs(state.layout, state.port);
                outside.trail[n].call == Runs(args, first) && outside.trail[n + 1].call == Runs(args, second)
      ensures Succeeded(r) ==> Shown(outside.world.outputs) == outside.baseline
      ensures outside.faults == old(outside.faults) ==> r.Lived? && (env.Some? ==> Succeeded(r))
    {
      first, second := Died, Died;
      if env.None? {
        return Lived(Err(CompositorNotFound)), first, second;
      }
      r, first := RestoreLayout(state, env.value);
      second := r;
    }

    /** `cleanup_state`: every step is tried, whatever has failed before, and the first error is reported. */
    method CleanupState(state: ConnectState, env: Option<KWinEnv>) returns (r: Outcome<()>, ghost o: Cleanup)
      requires outside.Steady() && InJournal(state)
      modifies outside
      ensures r.Died? ==> outside.Perished()
      ensures outside.Steady() && outside.Advanced() && outside.world.journal == old(outside.world.journal)
      ensures r.Lived? ==> TriesCleanup(old(outside.trail), outside.trail, state, env, o)
      ensures r.Lived? ==> r.value == CleanupReport(env, o)
      ensures Succeeded(o.off) && r.Lived? ==> outside.world.forced == {}
      ensures Succeeded(o.cleared) && r.Lived? ==> outside.world.edid == map[]
      ensures Succeeded(r) ==> env.Some? && Clean(outside.world, outside.baseline)
      ensures outside.faults == old(outside.faults) ==>
                r.Lived? && Succeeded(o.off) && Succeeded(o.cleared) && (env.Some? ==> Succeeded(r))
    {
      o := Cleanup(Died, Died, Died, Died);
      var screen;
      ghost var first, second;
      screen, first, second :- CleanScreen(state, env);
      var firstError := if screen.Err? then Some(screen.error) else None;
      ghost var screened := outside.trail;
      var off, cleared := CleanKernel(state);
      o := Cleanup(first, second, off, cleared);
      if cleared.Died? {
        return Died, o;
      }
      CleanupIsMade(old(outside.trail), screened, outside.trail, state, env, o);
      if off.value.Err? && firstError.None? {
        firstError := Some(off.value.error);
      }
      if cleared.value.Err? && firstError.None? {
        firstError := Some(cleared.value.error);
      }
      r := Lived(if firstError.None? then Ok(()) else Err(firstError.value));
    }

    /** Nothing is left that would have to be remembered. */
    method Forget()
      requires outside.Steady() && Remembers() && Clean(outside.world, outside.baseline)
      modifies this
      ensures Idle() && cache.None? && phases == old(phases) + [Event(None)]
    {
      Cache(None);
    }

    /** A cleanup has failed: the session has to be recovered later. */
    method AwaitRecovery(recovery: ConnectState)
      requires outside.Steady() && Remembers() && recovery.phase.RecoveryRequired? && InJournal(recovery)
      requires IsRevivable(Some(recovery), outside.world.journal) ==> PhaseOf(cache) == Some(LifecyclePhase.Connecting)
      modifies this
      ensures Idle() && cache == Some(recovery) && phases == old(phases) + [Event(cache)]
    {
      Cache(Some(recovery));
    }

    /** Deletes the journal if that can be done, and forgets the session. */
    method ForgetSession() returns (deleted: Outcome<()>)
      requires outside.Steady() && Remembers() && Clean(outside.world, outside.baseline)
      modifies this, outside
      ensures deleted.Died? ==> outside.Perished()
      ensures outside.Steady() && outside.Advanced()
      ensures outside.trail == old(outside.trail) + [outside.Now(Deletes(deleted))]
      ensures outside.world == old(outside.world).(journal := outside.world.journal)
      ensures outside.faults == old(outside.faults) ==> deleted.Lived?
      ensures deleted.Lived? ==> Idle() && cache.None? && phases == old(phases) + [Event(cache)]
      ensures Succeeded(deleted) ==> outside.world.journal.None?
    {
      deleted := DeleteJournal();
      if deleted.Lived? {
        Forget();
      }
    }

    /** Records that the session has to be recovered, in the journal if that can be, and in memory. */
    method LeaveForRecovery(recovery: ConnectState) returns (saved: Outcome<()>)
      requires outside.Steady() && Remembers() && InJournal(recovery) && recovery.phase.RecoveryRequired?
      requires PhaseOf(cache) == Some(LifecyclePhase.Connecting)
      modifies this, outside
      ensures saved.Died? ==> outside.Perished()
      ensures outside.Steady() && outside.Advanced()
      ensures outside.trail == old(outside.trail) + [outside.Now(Saves(recovery, true, saved))]
      ensures outside.world == old(outside.world).(journal := outside.world.journal)
      ensures outside.world.journal == Some(recovery) || (outside.world == old(outside.world) && !Succeeded(saved))
      ensures saved.Lived? ==> Idle() && cache == Some(recovery) && phases == old(phases) + [Event(cache)]
    {
      saved := SaveJournal(recovery, true);
      if saved.Lived? {
        AwaitRecovery(recovery);
      }
    }

    /** The session to be recovered lies over a journal that says connected, exactly if this one is still there. */
    ghost predicate RevivableIff(journal: Option<ConnectState>)
      reads this, outside
      requires journal.Some?
    {
      && outside.world.journal.Some?
      && (IsRevivable(cache, outside.world.journal)
          <==> outside.world.journal == journal && journal.value.phase.Connected?)
    }

    /** What was undone is undone, and what the last call was to make of the journal has been made of it. */
    ghost predicate Undid(u: Undoing, state: ConnectState)
      reads outside
    {
      && (Succeeded(u.o.off) ==> outside.world.forced == {})
      && (Succeeded(u.o.cleared) ==> outside.world.edid == map[])
      && (u.ended.Ok? ==> outside.world.journal == u.Memory(state, None))
    }

    /** What a failed connect does when the cleanup is over. */
    method EndRollback(state: ConnectState, cleaned: Result<(), Error>, source: Error)
      returns (r: Fate<Error>, ghost ended: Result<(), Error>)
      requires outside.Steady() && Remembers() && InJournal(state)
      requires PhaseOf(cache) == Some(LifecyclePhase.Connecting)
      requires cleaned.Ok? ==> Clean(outside.world, outside.baseline)
      modifies this, outside
      ensures r.Died? ==> outside.Perished()
      ensures outside.Steady() && outside.Advanced()
      ensures outside.world.forced == old(outside.world.forced) && outside.world.edid == old(outside.world.edid)
      ensures r.Lived? ==> Idle() && phases == old(phases) + [Event(cache)]
      ensures r.Lived? ==>
                if cleaned.Ok? then cache.None? && r.value == source
                else cache == Some(state.(phase := RecoveryRequired)) && r.value == Error.Other
      ensures r.Lived? ==>
                outside.trail == old(outside.trail)
                + [outside.Now(if cleaned.Err? then Saves(state.(phase := RecoveryRequired), true, Lived(ended))
                               else Deletes(Lived(ended)))]
      ensures r.Lived? && ended.Ok? ==> outside.world.journal == cache
      ensures r.Lived? && cache.Some? ==> RevivableIff(old(outside.world.journal))
      ensures cleaned.Ok? && outside.faults == old(outside.faults) ==> r.Lived?
    {
      match cleaned
      case Ok(_) =>
        var deleted := ForgetSession();
        ended := if deleted.Lived? then deleted.value else Ok(());
        r := if deleted.Lived? then Lived(source) else Died;
      case Err(_) =>
        var saved := LeaveForRecovery(state.(phase := RecoveryRequired));
        ended := if saved.Lived? then saved.value else Ok(());
        r := if saved.Lived? then Lived(Error.Other) else Died;
    }

    /**
     * `failed_connect`: rolls back, or leaves the session to be recovered later.  It is left over a journal
     * that says connected exactly if the journal said so before and the last save has not replaced it.
     */
    method FailedConnect(state: ConnectState, env: KWinEnv, source: Error)
      returns (r: Fate<Error>, ghost u: Undoing)
      requires outside.Steady() && Remembers() && InJournal(state)
      requires PhaseOf(cache) == Some(LifecyclePhase.Connecting)
      modifies this, outside
      ensures r.Died? ==> outside.Perished()
      ensures outside.Steady() && outside.Advanced()
      ensures r.Lived? ==> Idle() && phases == old(phases) + [Event(cache)]
      ensures r.Lived? ==> u.env == Some(env)
      ensures r.Lived? ==> u.Goes(old(outside.trail), outside.trail, state, true)
      ensures r.Lived? ==>
                if u.Report().Ok? then cache.None? && r.value == source
                else cache == Some(state.(phase := RecoveryRequired)) && r.value == Error.Other
      ensures r.Lived? ==> Undid(u, state)
      ensures r.Lived? && cache.Some? ==> RevivableIff(old(outside.world.journal))
      ensures outside.faults == old(outside.faults) ==> r.Lived? && cache.None?
    {
      u := *;
      var cleaned;
      ghost var o, ended;
      cleaned, o :- CleanupState(state, Some(env));
      ghost var during := outside.trail;
      r, ended := EndRollback(state, cleaned, source);
      u := Undoing(Some(env), o, during, ended);
    }

    /** Nothing of any session is left, on disk or elsewhere. */
    ghost predicate Restored()
      reads this, outside
    {
      Clean(outside.world, outside.baseline) && outside.world.journal.None?
    }

    /** What disconnecting and restoring do when the cleanup is over. */
    method EndTakeDown(state: ConnectState, cleaned: Result<(), Error>)
      returns (r: Outcome<()>, ghost ended: Result<(), Error>)
      requires Ready() && InJournal(state)
      requires cleaned.Ok? ==> Clean(outside.world, outside.baseline)
      modifies this, outside
      ensures r.Died? ==> outside.Perished()
      ensures outside.Steady() && outside.Passed()
      ensures outside.world.forced == old(outside.world.forced) && outside.world.edid == old(outside.world.edid)
      ensures old(cache).Some? ==> outside.breaks == old(outside.breaks)
      ensures r.Lived? ==> Ready() && (!Idle() ==> outside.breaks > old(outside.breaks))
      ensures Succeeded(r) ==> cleaned.Ok? && cache.None? && Restored()
      ensures r.Lived? ==>
                outside.trail == old(outside.trail)
                + [outside.Now(if cleaned.Ok? then Deletes(Lived(ended))
                               else Saves(state.(phase := RecoveryRequired), old(cache).Some?, Lived(ended)))]
      ensures r.Lived? ==> r.value == if ended.Err? then ended else cleaned
      ensures r.Lived? ==>
                cache == if ended.Err? then old(cache)
                         else if cleaned.Err? then Some(state.(phase := RecoveryRequired)) else None
      ensures r.Lived? && ended.Ok? ==> outside.world.journal == cache
      ensures cleaned.Ok? && outside.faults == old(outside.faults) ==> Succeeded(r)
    {
      ended := Ok(());
      if cleaned.Err? {
        var recovery := state.(phase := RecoveryRequired);
        var saved :- SaveJournal(recovery, cache.Some?);
        ended := saved;
        if saved.Err? {
          return Lived(Err(saved.error)), ended;
        }
        AwaitRecovery(recovery);
        return Lived(cleaned), ended;
      }
      var deleted :- DeleteJournal();
      ended := deleted;
      if deleted.Err? {
        return Lived(Err(deleted.error)), ended;
      }
      Forget();
      r := Lived(cleaned);
    }

    /** How disconnecting and restoring end alike: clean up, then forget the session or remember that it failed. */
    method TakeDown(state: ConnectState, env: Option<KWinEnv>) returns (r: Outcome<()>, ghost u: Undoing)
      requires Ready() && InJournal(state)
      modifies this, outside
      ensures r.Died? ==> outside.Perished()
      ensures outside.Steady() && outside.Passed()
      ensures old(cache).Some? ==> outside.breaks == old(outside.breaks)
      ensures r.Lived? ==> Ready() && (!Idle() ==> outside.breaks > old(outside.breaks))
      ensures Succeeded(r) ==> cache.None? && Restored()
      ensures r.Lived? ==> u.env == env
      ensures r.Lived? ==> u.Goes(old(outside.trail), outside.trail, state, old(cache).Some?)
      ensures r.Lived? ==> r.value == u.Answer()
      ensures r.Lived? ==> cache == u.Memory(state, old(cache))
      ensures r.Lived? ==> Undid(u, state)
      ensures env.Some? && outside.faults == old(outside.faults) ==> Succeeded(r)
    {
      u := *;
      var cleaned;
      ghost var o, ended;
      cleaned, o :- CleanupState(state, env);
      ghost var during := outside.trail;
      r, ended := EndTakeDown(state, cleaned);
      u := Undoing(env, o, during, ended);
    }

    // Disconnecting -------------------------------------------------------------

    /** Writes to the journal and then to memory that the session is being taken down. */
    method StartDisconnect(state: ConnectState) returns (saved: Outcome<()>)
      requires Ready() && cache.Some? && state == cache.value.(phase := Disconnecting)
      modifies this, outside
      ensures saved.Died? ==> outside.Perished()
      ensures outside.Steady() && outside.Advanced()
      ensures outside.trail == old(outside.trail) + [outside.Now(Saves(state, true, saved))]
      ensures outside.faults == old(outside.faults) + if Succeeded(saved) then 0 else 1
      ensures outside.world == old(outside.world).(journal := outside.world.journal)
      ensures saved.Lived? ==> Ready()
      ensures Succeeded(saved) ==> cache == outside.world.journal == Some(state)
      ensures !Succeeded(saved) ==> cache == old(cache)
    {
      saved := SaveJournal(state, true);
      if Succeeded(saved) {
        Cache(Some(state));
      }
    }

    /** Takes the session down, with its compositor if that can be found. */
    method TakeDownSession(state: ConnectState) returns (r: Outcome<()>, ghost d: Departure)
      requires Ready() && InJournal(state) && cache == Some(state)
      modifies this, outside
      ensures r.Died? ==> outside.Perished()
      ensures outside.Steady() && outside.Advanced()
      ensures r.Lived? ==> Idle()
      ensures Succeeded(r) ==> cache.None? && Restored()
      ensures r.Lived? ==> d.Goes(old(outside.trail), outside.trail, state)
      ensures r.Lived? ==> r.value == d.undoing.Answer()
      ensures r.Lived? ==> cache == d.undoing.Memory(state, Some(state))
      ensures r.Lived? ==> Undid(d.undoing, state)
      ensures outside.faults == old(outside.faults) ==> Succeeded(r)
    {
      d := *;
      var env :- ResolveCompositor(outside, state.sessionUid);
      ghost var resolved, u := outside.trail, *;
      r, u := TakeDown(state, Found(env));
      d := Departure(resolved, env, u);
    }

    /** `disconnect`. */
    method Disconnect() returns (r: Outcome<()>, ghost l: Leaving)
      requires Ready()
      modifies this, outside
      ensures r.Died? ==> outside.Perished()
      ensures outside.Steady() && outside.Advanced()
      ensures r.Lived? ==> Ready() && (old(Idle()) ==> Idle())
      ensures old(cache).None? ==> r == Lived(Err(NotConnected)) && outside.world == old(outside.world)
      ensures old(cache).Some? ==> |outside.trail| > |old(outside.trail)|
      ensures old(cache).Some? ==>
                var first := outside.trail[|old(outside.trail)|].call;
                first.Saves? && first.record == old(cache).value.(phase := Disconnecting)
      ensures Succeeded(r) ==> cache.None? && Restored()
      ensures r.Lived? ==> Disconnects(old(outside.trail), outside.trail, old(cache), l, r.value)
      ensures r.Lived? && old(cache).Some? ==>
                cache == l.Memory(old(cache).value.(phase := Disconnecting), old(cache))
      ensures r.Lived? && old(cache).Some? && l.saving.Ok? ==>
                Undid(l.departure.undoing, old(cache).value.(phase := Disconnecting))
      ensures r.Lived? && old(cache).Some? && l.saving.Err? ==>
                outside.world == old(outside.world).(journal := outside.world.journal)
      ensures old(cache).Some? && outside.faults == old(outside.faults) ==> Succeeded(r)
    {
      l := *;
      if cache.None? {
        return Lived(Err(NotConnected)), l;
      }
      var state := cache.value.(phase := Disconnecting);
      var saved :- StartDisconnect(state);
      ghost var begun := outside.trail;
      if saved.Err? {
        l := l.(begun := begun, saving := saved);
        return Lived(saved), l;
      }
      ghost var d;
      r, d := TakeDownSession(state);
      l := Leaving(begun, saved, d);
    }

    // Restoring -----------------------------------------------------------------

    /** The journal of a connected session, whose output is on, has become the daemon's memory. */
    ghost predicate Adopted(journal: Option<ConnectState>)
      reads this, outside
    {
      IsLive(outside.world) && outside.world.journal == cache == journal
    }

    /** Takes the journal of a live session for memory. */
    method Adopt(state: ConnectState)
      requires Ready() && outside.world.journal == Some(state) && IsLive(outside.world)
      modifies this
      ensures Idle() && Adopted(Some(state)) && phases == old(phases) + [Event(cache)]
    {
      Cache(Some(state));
    }

    /** Whether the listed outputs show the virtual one as on. */
    method ListsAsOn(state: ConnectState, env: KWinEnv) returns (active: Fate<bool>)
      requires outside.Steady()
      modifies outside
      ensures active.Died? ==> outside.Perished()
      ensures outside.Kept()
      ensures |outside.trail| == |old(outside.trail)| + 1 && Last(outside.trail).call.Lists?
      ensures active.Lived? ==> Last(outside.trail).call.listed.Lived?
      ensures active.Lived? ==>
                (active.value
                 <==> Succeeded(Last(outside.trail).call.listed) && state.port in Shown(outside.world.outputs))
      ensures outside.faults == old(outside.faults) ==> active == Lived(state.port in Shown(outside.world.outputs))
    {
      var listed :- TakeSnapshot(env);
      active := Lived(listed.Ok? && exists o | o in listed.value :: o.name == state.port && o.enabled);
    }

    /** The session's compositor, and whether the virtual output is on as far as can be told. */
    method Examine(state: ConnectState) returns (r: Fate<(Option<KWinEnv>, bool)>, ghost d: Search)
      requires outside.Steady()
      modifies outside
      ensures r.Died? ==> outside.Perished()
      ensures outside.Kept()
      ensures r.Lived? ==> d.examined == outside.trail
      ensures r.Lived? ==> d.Goes(old(outside.trail), state)
      ensures r.Lived? ==> r.value.0 == Found(d.env)
      ensures r.Lived? ==> r.value.1 == d.ListsAsOn(state.port)
      ensures r.Lived? && r.value.1 ==> state.port in Shown(outside.world.outputs)
      ensures outside.faults == old(outside.faults) ==>
                r.Lived? && r.value.0.Some? && r.value.1 == (state.port in Shown(outside.world.outputs))
    {
      d := *;
      var found :- ResolveCompositor(outside, state.sessionUid);
      d := Search(outside.trail, found, outside.trail);
      if found.Err? {
        return Lived((None, false)), d;
      }
      var active :- ListsAsOn(state, found.value);
      d := d.(examined := outside.trail);
      r := Lived((Some(found.value), active));
    }

    /** Restoring from a journal that has been loaded. */
    method RestoreFrom(state: ConnectState) returns (r: Outcome<()>, ghost d: Restoration)
      requires Ready() && outside.world.journal == Some(state)
      modifies this, outside
      ensures r.Died? ==> outside.Perished()
      ensures outside.Steady() && outside.Passed()
      ensures old(cache).Some? ==> outside.breaks == old(outside.breaks)
      ensures r.Lived? ==> Ready() && (!Idle() ==> outside.breaks > old(outside.breaks))
      ensures Succeeded(r) ==>
                || (Restored() && cache.None?)
                || (&& Adopted(Some(state)) && phases == old(phases) + [Event(cache)]
                    && outside.world == old(outside.world).(outputs := outside.world.outputs))
      ensures r.Lived? ==> d.Goes(old(outside.trail), outside.trail, state, old(cache).Some?)
      ensures r.Lived? ==> r.value == d.Answer(state)
      ensures r.Lived? ==> cache == d.Memory(state, old(cache))
      ensures r.Lived? && d.search.Adopts(state) ==> Adopted(Some(state))
      ensures r.Lived? && !d.search.Adopts(state) ==> Undid(d.undoing, state)
      ensures outside.faults == old(outside.faults) ==>
                Succeeded(r) && (old(IsLive(outside.world)) ==> Adopted(Some(state)))
    {
      d := *;
      var examined;
      ghost var search;
      examined, search :- Examine(state);
      d := d.(search := search);
      var (env, active) := examined;
      if state.phase.Connected? && active {
        Adopt(state);
        return Lived(Ok(())), d;
      }
      ghost var u;
      r, u := TakeDown(state, env);
      d := Restoration(search, u);
    }

    /**
     * `restore`: at the start of a daemon, and on request.  It strands the daemon only with an empty memory,
     * and only if the journal was refused or the record of the failed cleanup could not be written.
     */
    method Restore() returns (r: Outcome<()>, ghost d: Restoring)
      requires Ready()
      modifies this, outside
      ensures r.Died? ==> outside.Perished()
      ensures outside.Steady() && outside.Passed()
      ensures |outside.trail| > |old(outside.trail)|
      ensures outside.trail[|old(outside.trail)|].call.Loads?
      ensures old(cache).Some? ==> outside.breaks == old(outside.breaks)
      ensures r.Lived? ==> Ready()
      ensures r.Lived? && !Idle() ==> r.value.Err? && cache.None? && outside.breaks > old(outside.breaks)
      ensures Succeeded(r) ==> Idle() && (Restored() || Adopted(old(outside.world.journal)))
      ensures Succeeded(r) && !Restored() ==> outside.world == old(outside.world).(outputs := outside.world.outputs)
      ensures Succeeded(r) && Restored() ==> cache == if old(outside.world.journal).Some? then None else old(cache)
      ensures r.Lived? ==> d.Goes(old(outside.trail), outside.trail, old(cache).Some?)
      ensures r.Lived? ==> r.value == d.Answer()
      ensures r.Lived? ==> cache == d.Memory(old(cache))
      ensures r.Lived? && d.loaded.Ok? ==> d.loaded.value == old(outside.world.journal)
      ensures r.Lived? && d.Undoes() ==> Undid(d.restoration.undoing, d.loaded.value.value)
      ensures outside.faults == old(outside.faults) ==> Succeeded(r)
      ensures outside.faults == old(outside.faults) && old(IsLive(outside.world)) ==>
                Adopted(old(outside.world.journal)) && phases == old(phases) + [Event(cache)]
    {
      d := *;
      var loaded :- LoadJournal(cache.Some?);
      ghost var begun := outside.trail;
      if loaded.Err? {
        d := d.(begun := begun, loaded := loaded);
        return Lived(Err(loaded.error)), d;
      }
      if loaded.value.None? {
        d := d.(begun := begun, loaded := loaded);
        return Lived(Ok(())), d;
      }
      ghost var restoration;
      r, restoration := RestoreFrom(loaded.value.value);
      d := Restoring(begun, loaded, restoration);
    }

    // Connecting ----------------------------------------------------------------

    /** The card to use: the one asked for, the configured one, or the one with the most connected outputs. */
    method SelectCard(device: Option<string>) returns (r: Outcome<string>)
      requires outside.Steady()
      modifies outside
      ensures r.Died? ==> outside.Perished()
      ensures outside.Worked() && outside.world == old(outside.world)
      ensures r.Lived? ==> CardFrom(outside.trail, |old(outside.trail)|, device, defaultDevice, r.value)
      ensures r.Lived? ==> old(outside.trail) <= outside.trail
    {
      if device.Some? {
        return Lived(Ok(device.value));
      }
      if defaultDevice.Some? {
        return Lived(Ok(defaultDevice.value));
      }
      var cards :- outside.ListDrmCards();
      if cards.Err? {
        return Lived(Err(cards.error));
      }
      if cards.value == [] {
        return Lived(Err(NoCard));
      }
      var card :- SelectBest(outside, cards.value);
      r := Lived(Ok(card));
    }

    /** The least empty connector of the card among those that have just been read. */
    method SelectSlot(card: string) returns (r: Outcome<Slot>)
      requires outside.Steady()
      modifies outside
      ensures r.Died? ==> outside.Perished()
      ensures outside.Worked() && outside.world == old(outside.world)
      ensures |outside.trail| == |old(outside.trail)| + 1
      ensures r.Lived? ==> SlotFrom(outside.trail, card, r.value)
      ensures Succeeded(r) ==> r.value.value.card == card && r.value.value.port !in Shown(outside.world.outputs)
    {
      var entries :- outside.ReadConnectors();
      if entries.Err? {
        return Lived(Err(entries.error));
      }
      var port := Sysfs.FindEmptySlot(entries.value, card);
      if port.None? {
        return Lived(Err(NoSlot));
      }
      Sysfs.EligibleIsNotOn(entries.value, Shown(outside.world.outputs), card, port.value);
      r := Lived(Ok(Slot(card, port.value)));
    }

    /** A session is under way: its record is in memory and, whatever its phase, in the journal. */
    ghost predicate Underway(state: ConnectState)
      reads this, outside
    {
      && outside.Steady() && Remembers()
      && PhaseOf(cache) == Some(LifecyclePhase.Connecting)
      && outside.world.journal == cache == Some(state)
    }

    /** Writes the session to the journal and then to memory, before anything is changed. */
    method Register(state: ConnectState) returns (saved: Outcome<()>)
      requires Idle() && cache.None? && state.phase.Connecting? && Recoverable(outside.world, state, outside.baseline)
      modifies this, outside
      ensures saved.Died? ==> outside.Perished()
      ensures outside.Steady() && outside.Advanced()
      ensures outside.trail == old(outside.trail) + [outside.Now(Saves(state, false, saved))]
      ensures saved.Lived? && saved.value.Err? ==> Idle() && cache.None?
      ensures Succeeded(saved) ==> Underway(state) && Clean(outside.world, outside.baseline)
    {
      saved := SaveJournal(state, false);
      if Succeeded(saved) {
        Cache(Some(state));
      }
    }

    /** Takes the snapshot, and writes it to the journal before anything is changed. */
    method Begin(params: ConnectParams, env: KWinEnv, slot: Slot) returns (r: Outcome<ConnectState>)
      requires Idle() && cache.None? && slot.port !in Shown(outside.world.outputs)
      modifies this, outside
      ensures r.Died? ==> outside.Perished()
      ensures outside.Steady() && outside.Advanced()
      ensures r.Lived? && r.value.Err? ==> Idle() && cache.None?
      ensures Succeeded(r) ==>
                && Underway(r.value.value) && r.value.value.At() == slot && r.value.value.mode == params.mode
                && r.value.value.sessionUid == env.uid && IsConnectorId(slot.port)
                && Clean(outside.world, outside.baseline)
      ensures r.Lived? ==> EntryFrom(old(outside.trail), outside.trail, params, env, slot, r.value)
    {
      var snapshot :- TakeSnapshot(env);
      if snapshot.Err? {
        return Lived(Err(snapshot.error));
      }
      if !IsCardId(slot.card) || !IsConnectorId(slot.port) {
        return Lived(Err(Error.Other));
      }
      var state := ConnectState(Connecting, slot.card, slot.port, params.mode, env.uid, snapshot.value);
      CleanSnapshotCovers(outside.world, outside.baseline, state);
      var saved :- Register(state);
      r := Lived(if saved.Ok? then Ok(state) else Err(saved.error));
    }

    method DisableOutput(env: KWinEnv, name: string) returns (r: Outcome<()>)
      requires outside.Steady() && outside.world.journal.Some?
      modifies outside
      ensures r.Died? ==> outside.Perished()
      ensures outside.Worked()
      ensures r.Lived? && r.value.Err? ==> EndsIn(old(outside.trail), outside.trail, r.value.error)
      ensures Succeeded(r) ==> |outside.trail| == |old(outside.trail)| + 2
      ensures Succeeded(r) ==> Shown(outside.world.outputs).Keys == old(Shown(outside.world.outputs).Keys) - {name}
      ensures outside.faults == old(outside.faults) ==> Succeeded(r)
    {
      ghost var first;
      r, first := RunTwice(outside, env, [Disable(name)]);
      if Succeeded(r) {
        ghost var between :| RanTwice(old(outside.world.outputs), [Disable(name)], between, outside.world.outputs);
        DisablingRun(old(outside.world.outputs), name, between, outside.world.outputs);
      }
    }

    /** Switches the chosen outputs off one by one. */
    method DisableOutputs(env: KWinEnv, names: seq<string>) returns (r: Outcome<()>)
      requires outside.Steady() && outside.world.journal.Some?
      modifies outside
      ensures r.Died? ==> outside.Perished()
      ensures outside.Worked()
      ensures r.Lived? && r.value.Err? ==> EndsIn(old(outside.trail), outside.trail, r.value.error)
      ensures Succeeded(r) ==> |outside.trail| == |old(outside.trail)| + 2 * |names|
      ensures Succeeded(r) ==>
                Shown(outside.world.outputs).Keys == old(Shown(outside.world.outputs).Keys) - ToSet(names)
    {
      for i := 0 to |names|
        invariant outside.Worked()
        invariant |outside.trail| == |old(outside.trail)| + 2 * i
        invariant Shown(outside.world.outputs).Keys == old(Shown(outside.world.outputs).Keys) - ToSet(names[..i])
      {
        var ran :- DisableOutput(env, names[i]);
        if ran.Err? {
          return Lived(ran);
        }
        assert names[..i + 1] == names[..i] + [names[i]];
        assert ToSet(names[..i + 1]) == ToSet(names[..i]) + {names[i]};
      }
      assert names[..|names|] == names;
      r := Lived(Ok(()));
    }

    method Override(state: ConnectState, edid: seq<Bits.byte>) returns (r: Outcome<()>)
      requires outside.Steady() && outside.world.journal == Some(state) && outside.world.edid == map[]
      modifies outside
      ensures r.Died? ==> outside.Perished()
      ensures outside.Steady() && outside.Advanced()
      ensures outside.trail == old(outside.trail) + [outside.Now(Overrides(state.At(), edid, r))]
      ensures outside.world == old(outside.world).(edid := outside.world.edid)
      ensures Succeeded(r) ==> outside.world.edid == map[state.At() := edid]
    {
      r := outside.WriteEdidOverride(state.At(), edid);
    }

    /** Writes the override, and has KWin forget what it knew of the connector. */
    method WriteOverride(state: ConnectState, env: KWinEnv, edid: seq<Bits.byte>) returns (r: Outcome<()>)
      requires outside.Steady() && outside.world.journal == Some(state) && outside.world.edid == map[]
      modifies outside
      ensures r.Died? ==> outside.Perished()
      ensures outside.Steady() && outside.Advanced()
      ensures outside.world == old(outside.world).(edid := outside.world.edid)
      ensures r.Lived? && r.value.Err? ==> EndsIn(old(outside.trail), outside.trail, r.value.error)
      ensures Succeeded(r) ==>
                var n := |old(outside.trail)|;
                && |outside.trail| == n + 2 && Overrode(outside.trail[n].call, state, edid)
                && Forgot(outside.trail[n + 1].call, state)
      ensures Succeeded(r) ==> outside.world.edid == map[state.At() := edid]
    {
      r := Override(state, edid);
      if Succeeded(r) {
        r := outside.ClearKwinOutputConfig(state.port, env.uid);
      }
    }

    method ForceOn(state: ConnectState) returns (r: Outcome<()>)
      requires outside.Steady() && outside.world.journal == Some(state) && outside.world.forced == {}
      modifies outside
      ensures r.Died? ==> outside.Perished()
      ensures outside.Steady() && outside.Advanced()
      ensures outside.world == old(outside.world).(outputs := outside.world.outputs, forced := outside.world.forced)
      ensures outside.trail == old(outside.trail) + [outside.Now(Sets(state.At(), true, r))]
      ensures Succeeded(r) ==>
                && outside.world.forced == {state.At()}
                && Others(outside.world.outputs, state.port) == old(Others(outside.world.outputs, state.port))
    {
      r := outside.SetConnectorStatus(state.At(), true);
      if Succeeded(r) {
        PluggingKeepsOthers(old(outside.world.outputs), state.port, outside.world.outputs);
      }
    }

    /** Up to forcing the connector on. */
    method Prepare(state: ConnectState, env: KWinEnv, edid: seq<Bits.byte>, toDisable: seq<string>)
      returns (r: Outcome<()>)
      requires outside.Steady() && outside.world.journal == Some(state)
      requires outside.world.edid == map[] && outside.world.forced == {}
      modifies outside
      ensures r.Died? ==> outside.Perished()
      ensures outside.Steady() && outside.Advanced() && outside.world.journal == Some(state)
      ensures r.Lived? ==> PreparedBy(old(outside.trail), outside.trail, state, edid, toDisable, r.value)
      ensures Succeeded(r) ==> outside.world.edid == map[state.At() := edid] && outside.world.forced == {state.At()}
      ensures Succeeded(r) ==>
                Others(outside.world.outputs, state.port)
                == Less(old(Others(outside.world.outputs, state.port)), toDisable)
    {
      var written :- WriteOverride(state, env, edid);
      if written.Err? {
        return Lived(written);
      }
      var disabled :- DisableOutputs(env, toDisable);
      if disabled.Err? {
        return Lived(disabled);
      }
      r := ForceOn(state);
    }

    /** Whether the connector's name turns up in a listing, in any case. */
    method TurnsUp(env: KWinEnv, port: string) returns (r: Fate<bool>)
      requires outside.Steady()
      modifies outside
      ensures r.Died? ==> outside.Perished()
      ensures outside.Kept()
      ensures |outside.trail| == |old(outside.trail)| + 1 && outside.trail[|old(outside.trail)|].call.Lists?
      ensures r == Lived(true) <==> TurnedUp(outside.trail[|old(outside.trail)|], port)
      ensures r == Lived(true) ==> Succeeded(outside.trail[|old(outside.trail)|].call.listed)
    {
      var listed :- outside.ListOutputs(env);
      r := Lived(listed.Ok? && Contains(Lower(listed.value), Lower(port)));
    }

    /** Lists the outputs until the connector's name turns up or there is no time left. */
    method AwaitOutput(env: KWinEnv, port: string) returns (r: Outcome<()>)
      requires outside.Steady()
      modifies outside
      ensures r.Died? ==> outside.Perished()
      ensures outside.Kept()
      ensures r.Lived? ==> AwaitedBy(old(outside.trail), outside.trail, port, outputReadyPolls, r.value)
    {
      ghost var n := |outside.trail|;
      for i := 0 to outputReadyPolls
        invariant outside.Kept() && |outside.trail| == n + i && InVain(outside.trail, n, n + i, port)
      {
        ghost var before := outside.trail;
        var appeared :- TurnsUp(env, port);
        StillInVain(before, outside.trail, n, n + i, port);
        if appeared {
          return Lived(Ok(()));
        }
      }
      r := Lived(Err(OutputDetectionTimeout));
    }

    /** Where to put the virtual output: right of the others, or at zero if they cannot be listed. */
    method Place(env: KWinEnv, port: string) returns (r: Fate<i32>)
      requires outside.Steady()
      modifies outside
      ensures r.Died? ==> outside.Perished()
      ensures outside.Kept()
      ensures |outside.trail| == |old(outside.trail)| + 1 && outside.trail[|old(outside.trail)|].call.Lists?
      ensures r.Lived? ==> r.value == PlaceFor(outside.trail[|old(outside.trail)|].call, port)
    {
      var snapshot :- TakeSnapshot(env);
      if snapshot.Err? {
        return Lived(0);
      }
      var x := VirtualX(snapshot.value, port);
      r := Lived(x);
    }

    method LightUp(state: ConnectState, env: KWinEnv, x: i32) returns (r: Outcome<()>)
      requires outside.Steady() && outside.world.journal == Some(state)
      modifies outside
      ensures r.Died? ==> outside.Perished()
      ensures outside.Worked() && PluggedIn(old(outside.world.outputs), state.port, outside.world.outputs)
      ensures Others(outside.world.outputs, state.port) == old(Others(outside.world.outputs, state.port))
      ensures r.Lived? ==> |outside.trail| == |old(outside.trail)| + 2
      ensures r.Lived? ==>
                var n := |old(outside.trail)|;
                && Shows(outside.trail[n].call, state.port, state.mode, x)
                && Shows(outside.trail[n + 1].call, state.port, state.mode, x) && outside.trail[n + 1].call.r == r
      ensures Succeeded(r) && state.port in outside.world.outputs ==>
                var o := outside.world.outputs[state.port]; o.enabled && o.x == x && o.y == 0
    {
      var args := ShowArgs(state.port, state.mode, x);
      ghost var first;
      r, first := RunTwice(outside, env, args);
      RunsAboutOne(old(outside.world.outputs), args, state.port, outside.world.outputs);
      PluggingKeepsOthers(old(outside.world.outputs), state.port, outside.world.outputs);
      if Succeeded(r) && state.port in outside.world.outputs {
        ghost var between :| RanTwice(old(outside.world.outputs), args, between, outside.world.outputs);
        ShowingRun(between, state.port, state.mode, x, outside.world.outputs);
      }
    }

    /** Places the virtual output and switches it on there: a listing and two passes. */
    method Show(state: ConnectState, env: KWinEnv) returns (r: Outcome<()>)
      requires outside.Steady() && outside.world.journal == Some(state)
      modifies outside
      ensures r.Died? ==> outside.Perished()
      ensures outside.Worked()
      ensures r.Lived? ==> |outside.trail| == |old(outside.trail)| + 3
      ensures r.Lived? ==>
                var n := |old(outside.trail)|;
                && outside.trail[n].call.Lists?
                && var x := PlaceFor(outside.trail[n].call, state.port);
                && Shows(outside.trail[n + 1].call, state.port, state.mode, x)
                && Shows(outside.trail[n + 2].call, state.port, state.mode, x) && outside.trail[n + 2].call.r == r
      ensures Succeeded(r) ==>
                var n := |outside.trail|;
                && IsPlaced(outside.trail[n - 3], outside.trail[n - 1], outside.world.outputs, state.port)
                && Others(outside.world.outputs, state.port) == old(Others(outside.world.outputs, state.port))
    {
      var x :- Place(env, state.port);
      PluggingKeepsOthers(old(outside.world.outputs), state.port, outside.world.outputs);
      r := LightUp(state, env, x);
    }

    /** Whether KWin shows the mode that was asked for. */
    method Verify(state: ConnectState, env: KWinEnv) returns (r: Fate<bool>)
      requires outside.Steady()
      modifies outside
      ensures r.Died? ==> outside.Perished()
      ensures outside.Kept() && |outside.trail| == |old(outside.trail)| + 1 && Last(outside.trail).call.Lists?
      ensures r.Lived? ==> r.value == IsVerified(Last(outside.trail), state)
      ensures r == Lived(true) ==> ShowsMode(outside.world.outputs, state.port, state.mode)
      ensures outside.faults == old(outside.faults) ==>
                r == Lived(ShowsMode(outside.world.outputs, state.port, state.mode))
    {
      var listed :- outside.ListOutputs(env);
      if listed.Err? {
        return Lived(false);
      }
      ListingTells(listed.value, outside.world.outputs);
      var mode := state.mode;
      var matches := ActiveModeMatches(listed.value, state.port, mode.width, mode.height, mode.refresh);
      r := Lived(matches);
    }

    /** Shows the virtual output and verifies its mode: a listing, two passes and another listing. */
    method ShowVerified(state: ConnectState, env: KWinEnv) returns (r: Outcome<()>)
      requires outside.Steady() && outside.world.journal == Some(state)
      modifies outside
      ensures r.Died? ==> outside.Perished()
      ensures outside.Worked()
      ensures r.Lived? ==> ShownBy(old(outside.trail), outside.trail, state, r.value)
      ensures Succeeded(r) ==> |outside.trail| == |old(outside.trail)| + 4
      ensures Succeeded(r) ==>
                var n := |outside.trail|;
                && IsPlaced(outside.trail[n - 4], outside.trail[n - 2], outside.world.outputs, state.port)
                && ShowsMode(outside.world.outputs, state.port, state.mode)
                && Others(outside.world.outputs, state.port) == old(Others(outside.world.outputs, state.port))
    {
      var lit :- Show(state, env);
      if lit.Err? {
        return Lived(lit);
      }
      ghost var outputs := outside.world.outputs;
      var verified :- Verify(state, env);
      PluggingKeepsOthers(outputs, state.port, outside.world.outputs);
      r := Lived(if verified then Ok(()) else Err(ModeVerificationFailed));
    }

    /** Waits for the output of the session. */
    method AwaitSession(state: ConnectState, env: KWinEnv) returns (r: Outcome<()>)
      requires outside.Steady() && outside.world.journal == Some(state)
      modifies outside
      ensures r.Died? ==> outside.Perished()
      ensures outside.Worked()
      ensures r.Lived? ==> AwaitedBy(old(outside.trail), outside.trail, state.port, outputReadyPolls, r.value)
      ensures Others(outside.world.outputs, state.port) == old(Others(outside.world.outputs, state.port))
    {
      r := AwaitOutput(env, state.port);
      PluggingKeepsOthers(old(outside.world.outputs), state.port, outside.world.outputs);
    }

    /** Waits for the virtual output, shows it and verifies its mode. */
    method Present(state: ConnectState, env: KWinEnv) returns (r: Outcome<()>, ghost a: Attempt)
      requires outside.Steady() && outside.world.journal == Some(state)
      modifies outside
      ensures r.Died? ==> outside.Perished()
      ensures outside.Steady() && outside.Advanced()
      ensures outside.world.journal == old(outside.world.journal)
      ensures outside.world.edid == old(outside.world.edid) && outside.world.forced == old(outside.world.forced)
      ensures r.Lived? ==> a.prepared == old(outside.trail) && a.preparing.Ok?
      ensures r.Lived? ==> AwaitedBy(a.prepared, a.awaited, state.port, outputReadyPolls, a.waiting)
      ensures r.Lived? && a.waiting.Ok? ==> ShownBy(a.awaited, a.shown, state, a.showing)
      ensures r.Lived? ==> a.End() == outside.trail
      ensures r.Lived? ==> r.value == a.Answer()
      ensures Succeeded(r) ==> IsInPlace(a, outside.world.outputs, state.port)
      ensures Succeeded(r) ==> ShowsMode(outside.world.outputs, state.port, state.mode)
      ensures Succeeded(r) ==>
                Others(outside.world.outputs, state.port) == old(Others(outside.world.outputs, state.port))
    {
      a := *;
      ghost var prepared := outside.trail;
      var there :- AwaitSession(state, env);
      ghost var awaited := outside.trail;
      if there.Err? {
        a := Attempt(prepared, Ok(()), awaited, there, [], Ok(()));
        return Lived(there), a;
      }
      var shown :- ShowVerified(state, env);
      a := Attempt(prepared, Ok(()), awaited, there, outside.trail, shown);
      r := Lived(shown);
    }

    /** Everything between the journal entry and the verified mode. */
    method BringUp(state: ConnectState, env: KWinEnv, edid: seq<Bits.byte>, toDisable: seq<string>)
      returns (r: Outcome<()>, ghost a: Attempt)
      requires outside.Steady() && outside.world.journal == Some(state)
      requires outside.world.edid == map[] && outside.world.forced == {}
      modifies outside
      ensures r.Died? ==> outside.Perished()
      ensures outside.Steady() && outside.Advanced() && outside.world.journal == Some(state)
      ensures r.Lived? ==> a.Goes(old(outside.trail), state, edid, toDisable, outputReadyPolls)
      ensures r.Lived? ==> a.End() == outside.trail
      ensures r.Lived? ==> r.value == a.Answer()
      ensures Succeeded(r) ==> outside.world.edid == map[state.At() := edid] && outside.world.forced == {state.At()}
      ensures Succeeded(r) ==> IsInPlace(a, outside.world.outputs, state.port)
      ensures Succeeded(r) ==> ShowsMode(outside.world.outputs, state.port, state.mode)
      ensures Succeeded(r) ==>
                Others(outside.world.outputs, state.port)
                == Less(old(Others(outside.world.outputs, state.port)), toDisable)
    {
      a := *;
      var prepared :- Prepare(state, env, edid, toDisable);
      if prepared.Err? {
        a := Attempt(outside.trail, prepared, [], Ok(()), [], Ok(()));
        return Lived(prepared), a;
      }
      r, a := Present(state, env);
    }

    /** What a connect leaves on of the baseline, and the output of the session. */
    function Remaining(exclusive: bool, on: Baseline, slot: string): set<string> {
      (if exclusive then {} else on.Keys - ToSet(disableOutputs)) + {slot}
    }

    lemma LeavesOn(exclusive: bool, s: ConnectState, on: Baseline)
      requires Target(s.layout) == on
      ensures on.Keys - {s.port} - ToSet(ToDisable(exclusive, disableOutputs, s))
              == if exclusive then {} else on.Keys - {s.port} - ToSet(disableOutputs)
    {
      EnabledAreTarget(s.layout, s.port);
    }

    /** Which outputs are on when those to be disabled are off and the session's shows its mode. */
    lemma LeftOn(exclusive: bool, s: ConnectState, on: Baseline, before: Screen, after: Screen)
      requires Target(s.layout) == on && Shown(before) == on && s.port !in on && ShowsMode(after, s.port, s.mode)
      requires Others(after, s.port) == Less(Others(before, s.port), ToDisable(exclusive, disableOutputs, s))
      ensures Shown(after).Keys == Remaining(exclusive, on, s.port)
    {
      LeavesOn(exclusive, s, on);
      assert s.port in Shown(after) && on.Keys - {s.port} == on.Keys;
    }

    /** The session in memory and in the journal is connected and shows what was asked for. */
    ghost predicate Serves(params: ConnectParams, edid: seq<Bits.byte>, result: ConnectResult, a: Attempt)
      reads this, outside
    {
      && cache.Some? && outside.world.journal == cache
      && var c := cache.value;
      && c.phase.Connected? && c.mode == params.mode && result == ConnectResult(c.card, c.port, c.mode)
      && outside.world.forced == {c.At()} && outside.world.edid == map[c.At() := edid]
      && ShowsMode(outside.world.outputs, c.port, params.mode)
      && Shown(outside.world.outputs).Keys == Remaining(params.exclusive, outside.baseline, c.port)
      && IsInPlace(a, outside.world.outputs, c.port)
    }

    /** Rolled back, or left to be recovered later. */
    ghost predicate GaveUp(error: Error)
      reads this, outside
    {
      && Idle()
      && (cache.Some? ==> error == Error.Other && cache.value.phase.RecoveryRequired? && outside.world.journal.Some?)
    }

    /** The card and the connector of it. */
    method ChooseSlot(device: Option<string>)
      returns (r: Outcome<Slot>, ghost selected: seq<Moment>, ghost card: Result<string, Error>)
      requires outside.Steady()
      modifies outside
      ensures r.Died? ==> outside.Perished()
      ensures outside.Worked() && outside.world == old(outside.world)
      ensures Succeeded(r) ==> r.value.value.port !in Shown(outside.world.outputs)
      ensures r.Lived? ==>
                && old(outside.trail) <= selected <= outside.trail
                && CardFrom(selected, |old(outside.trail)|, device, defaultDevice, card)
      ensures r.Lived? ==>
                if card.Err? then outside.trail == selected && r.value == Err(card.error)
                else |outside.trail| == |selected| + 1 && SlotFrom(outside.trail, card.value, r.value)
    {
      selected, card := [], *;
      var found :- SelectCard(device);
      selected, card := outside.trail, found;
      if found.Err? {
        return Lived(Err(found.error)), selected, card;
      }
      r := SelectSlot(found.value);
    }

    /** The compositor and the connector; nothing has been changed yet. */
    method Choose(params: ConnectParams) returns (r: Outcome<(KWinEnv, Slot)>, ghost c: Choice)
      requires Idle() && cache.None?
      modifies outside
      ensures r.Died? ==> outside.Perished()
      ensures Idle() && outside.Advanced() && outside.world == old(outside.world)
      ensures IsDiscovery(outside.trail, |old(outside.trail)|, params.requesterUid)
      ensures Succeeded(r) ==> r.value.value.1.port !in Shown(outside.world.outputs)
      ensures r.Lived? ==> c.Goes(old(outside.trail), params, defaultDevice)
      ensures r.Lived? ==> c.End() == outside.trail
      ensures r.Lived? ==> r.value == c.Answer()
    {
      c := *;
      var env :- ResolveCompositor(outside, params.requesterUid);
      c := c.(resolved := outside.trail, env := env);
      if env.Err? {
        return Lived(Err(env.error)), c;
      }
      var slot;
      ghost var selected, card;
      slot, selected, card :- ChooseSlot(params.device);
      c := Choice(c.resolved, env, selected, card, outside.trail, slot);
      r := Lived(if slot.Err? then Err(slot.error) else Ok((env.value, slot.value)));
    }

    /**
     * Records the verified session as connected.  If that fails and so does the rollback, the session to be
     * recovered lies over a journal that says connected exactly when the failed save had replaced the journal
     * and the save of the recovery has not.
     */
    method Commit(state: ConnectState, env: KWinEnv, ghost a: Attempt)
      returns (r: Outcome<()>, ghost v: Venture)
      requires Underway(state) && a.Answer().Ok? && a.End() == outside.trail
      modifies this, outside
      ensures r.Died? ==> outside.Perished()
      ensures outside.Steady() && outside.Advanced()
      ensures r.Lived? && r.value.Err? ==> GaveUp(r.value.error)
      ensures r.Lived? ==> phases == old(phases) + [Event(cache)]
      ensures r.Lived? && r.value.Err? ==> outside.faults > old(outside.faults)
      ensures r.Lived? ==> v.attempt == a
      ensures r.Lived? ==> v.Finishes(outside.trail, state)
      ensures r.Lived? ==> r.value == v.Answer()
      ensures r.Lived? ==> cache == v.Memory(state)
      ensures r.Lived? && r.value.Err? ==> Undid(v.undoing, state)
      ensures r.Lived? && cache.Some? && r.value.Err? ==>
                var connected := Some(state.(phase := Connected));
                && v.recorded != []
                && (IsRevivable(cache, outside.world.journal)
                    <==> Last(v.recorded).world.journal == connected && outside.world.journal == connected)
      ensures Succeeded(r) ==> Idle() && outside.world == old(outside.world).(journal := cache)
    {
      var connected := state.(phase := Connected);
      v := *;
      var saved :- SaveJournal(connected, true);
      v := v.(attempt := a, recorded := outside.trail, recording := saved);
      if saved.Err? {
        var failure;
        ghost var u;
        failure, u :- FailedConnect(connected, env, saved.error);
        v := v.(undoing := u);
        return Lived(Err(failure)), v;
      }
      Cache(Some(connected));
      r := Lived(saved);
    }

    /** Brings the output up and commits, or rolls back. */
    method Establish(state: ConnectState, env: KWinEnv, edid: seq<Bits.byte>, toDisable: seq<string>)
      returns (r: Outcome<()>, ghost v: Venture)
      requires Underway(state) && outside.world.edid == map[] && outside.world.forced == {}
      modifies this, outside
      ensures r.Died? ==> outside.Perished()
      ensures outside.Steady() && outside.Advanced()
      ensures r.Lived? && r.value.Err? ==> GaveUp(r.value.error)
      ensures r.Lived? && r.value.Err? && outside.faults == old(outside.faults) ==> cache.None?
      ensures r.Lived? ==> v.Goes(old(outside.trail), outside.trail, state, edid, toDisable, outputReadyPolls)
      ensures r.Lived? ==> r.value == v.Answer()
      ensures r.Lived? ==> cache == v.Memory(state)
      ensures r.Lived? && r.value.Err? ==> Undid(v.undoing, state)
      ensures Succeeded(r) ==> Idle() && outside.world.journal == cache == Some(state.(phase := Connected))
      ensures Succeeded(r) ==> outside.world.edid == map[state.At() := edid] && outside.world.forced == {state.At()}
      ensures Succeeded(r) ==> ShowsMode(outside.world.outputs, state.port, state.mode)
      ensures Succeeded(r) ==>
                Others(outside.world.outputs, state.port)
                == Less(old(Others(outside.world.outputs, state.port)), toDisable)
      ensures Succeeded(r) ==> IsInPlace(v.attempt, outside.world.outputs, state.port)
    {
      v := *;
      var up;
      ghost var a;
      up, a :- BringUp(state, env, edid, toDisable);
      if up.Err? {
        var failure;
        ghost var u;
        failure, u :- FailedConnect(state, env, up.error);
        v := v.(attempt := a, undoing := u);
        return Lived(Err(failure)), v;
      }
      r, v := Commit(state, env, a);
    }

    /** Everything after the journal entry. */
    method Serve(params: ConnectParams, env: KWinEnv, state: ConnectState, edid: seq<Bits.byte>)
      returns (r: Outcome<ConnectResult>, ghost v: Venture)
      requires Underway(state) && Clean(outside.world, outside.baseline)
      requires state.mode == params.mode
      modifies this, outside
      ensures r.Died? ==> outside.Perished()
      ensures outside.Steady() && outside.Advanced()
      ensures r.Lived? && r.value.Err? ==> GaveUp(r.value.error)
      ensures r.Lived? && r.value.Err? && outside.faults == old(outside.faults) ==> cache.None?
      ensures r.Lived? ==>
                v.Goes(old(outside.trail), outside.trail, state, edid,
                       ToDisable(params.exclusive, disableOutputs, state), outputReadyPolls)
      ensures r.Lived? ==>
                r.value == if v.Answer().Err? then Err(v.Answer().error)
                           else Ok(ConnectResult(state.card, state.port, state.mode))
      ensures r.Lived? ==> cache == v.Memory(state)
      ensures r.Lived? && r.value.Err? ==> Undid(v.undoing, state)
      ensures Succeeded(r) ==> Idle() && Serves(params, edid, r.value.value, v.attempt)
    {
      v := *;
      var toDisable := ToDisable(params.exclusive, disableOutputs, state);
      ghost var before := outside.world.outputs;
      var established;
      established, v :- Establish(state, env, edid, toDisable);
      if established.Err? {
        return Lived(Err(established.error)), v;
      }
      LeftOn(params.exclusive, state, outside.baseline, before, outside.world.outputs);
      r := Lived(Ok(ConnectResult(state.card, state.port, params.mode)));
    }

    /** Snapshot, journal and everything after it, on the chosen connector. */
    method ConnectAt(params: ConnectParams, env: KWinEnv, slot: Slot, edid: seq<Bits.byte>)
      returns (r: Outcome<ConnectResult>, ghost q: Sequel)
      requires Idle() && cache.None? && slot.port !in Shown(outside.world.outputs)
      modifies this, outside
      ensures r.Died? ==> outside.Perished()
      ensures outside.Steady() && outside.Advanced()
      ensures r.Lived? && r.value.Err? ==> GaveUp(r.value.error)
      ensures r.Lived? && r.value.Err? && outside.faults == old(outside.faults) ==> cache.None?
      ensures r.Lived? ==> q.Goes(old(outside.trail), outside.trail, params, Configured(), env, slot, edid)
      ensures r.Lived? ==> r.value == q.Answer()
      ensures r.Lived? ==> cache == q.Memory()
      ensures r.Lived? && r.value.Err? && q.entry.Ok? ==> Undid(q.venture.undoing, q.entry.value)
      ensures Succeeded(r) ==> Idle() && Serves(params, edid, r.value.value, q.venture.attempt)
      ensures Succeeded(r) ==> cache.value.At() == slot && cache.value.sessionUid == env.uid
    {
      q := *;
      var begun :- Begin(params, env, slot);
      q := q.(begun := outside.trail, entry := begun);
      if begun.Err? {
        return Lived(Err(begun.error)), q;
      }
      ghost var entered, v := outside.trail, *;
      r, v := Serve(params, env, begun.value, edid);
      q := Sequel(entered, begun, v);
    }

    lemma FaultlessConnect(c: Course, t: Trail, params: ConnectParams, edid: seq<Bits.byte>)
      requires outside.Steady() && t != [] && t <= outside.trail
      requires c.Goes(t, outside.trail, params, Configured(), edid)
      ensures outside.faults == Last(t).faults ==> (c.Answer().Ok? <==> MayConnect(c, params, Configured()))
    {
      if outside.faults == Last(t).faults {
        ConnectsIff(c, t, outside.trail, params, Configured(), edid);
      }
    }

    /** The EDID, and then everything else. */
    method ConnectChosen(params: ConnectParams, env: KWinEnv, slot: Slot, hCm: nat, vCm: nat)
      returns (r: Outcome<ConnectResult>, ghost edid: seq<Bits.byte>, ghost q: Sequel)
      requires Idle() && cache.None? && slot.port !in Shown(outside.world.outputs) && InRange(params.mode)
      modifies this, outside
      ensures r.Died? ==> outside.Perished()
      ensures outside.Steady() && outside.Advanced()
      ensures r.Lived? ==> Idle()
      ensures r.Lived? && r.value.Err? ==> GaveUp(r.value.error)
      ensures r.Lived? && r.value.Err? && outside.faults == old(outside.faults) ==> cache.None?
      ensures r.Lived? ==> q.Goes(old(outside.trail), outside.trail, params, Configured(), env, slot, edid)
      ensures r.Lived? ==> r.value == q.Answer()
      ensures r.Lived? ==> cache == q.Memory()
      ensures r.Lived? && r.value.Err? && q.entry.Ok? ==> Undid(q.venture.undoing, q.entry.value)
      ensures Succeeded(r) ==> Serves(params, edid, r.value.value, q.venture.attempt)
      ensures Succeeded(r) ==> Edid.IsBlock(edid, params.mode, hCm, vCm)
      ensures Succeeded(r) ==> cache.value.At() == slot && cache.value.sessionUid == env.uid
    {
      var buffer := Edid.Generate(params.mode, hCm, vCm);
      edid := buffer[..];
      r, q := ConnectAt(params, env, slot, buffer[..]);
    }

    /** A connect with nothing in memory. */
    method ConnectNew(params: ConnectParams, hCm: nat, vCm: nat)
      returns (r: Outcome<ConnectResult>, ghost edid: seq<Bits.byte>, ghost c: Course)
      requires Idle() && cache.None? && InRange(params.mode)
      modifies this, outside
      ensures r.Died? ==> outside.Perished()
      ensures outside.Steady() && outside.Advanced()
      ensures r.Lived? ==> Idle()
      ensures IsDiscovery(outside.trail, |old(outside.trail)|, params.requesterUid)
      ensures r.Lived? && r.value.Err? ==> GaveUp(r.value.error)
      ensures r.Lived? && r.value.Err? && outside.faults == old(outside.faults) ==> cache.None?
      ensures r.Lived? ==> c.Goes(old(outside.trail), outside.trail, params, Configured(), edid)
      ensures r.Lived? ==> r.value == c.Answer()
      ensures r.Lived? ==> cache == c.Memory()
      ensures r.Lived? && r.value.Err? && c.choice.Answer().Ok? && c.sequel.entry.Ok? ==>
                Undid(c.sequel.venture.undoing, c.sequel.entry.value)
      ensures Succeeded(r) ==> Serves(params, edid, r.value.value, c.sequel.venture.attempt)
      ensures Succeeded(r) ==> Edid.IsBlock(edid, params.mode, hCm, vCm)
      ensures Succeeded(r) ==>
                && c.choice.Answer() == Ok((c.choice.env.value, cache.value.At()))
                && cache.value.sessionUid == c.choice.env.value.uid
    {
      edid, c := [], *;
      var chosen;
      ghost var choice;
      chosen, choice :- Choose(params);
      if chosen.Err? {
        c := c.(choice := choice);
        EndsInChoice(c, old(outside.trail), params, Configured(), edid);
        return Lived(Err(chosen.error)), edid, c;
      }
      var (env, slot) := chosen.value;
      ghost var sequel;
      r, edid, sequel := ConnectChosen(params, env, slot, hCm, vCm);
      c := Course(choice, sequel);
      if r.Lived? {
        GoesOnAfterChoice(c, old(outside.trail), outside.trail, params, Configured(), env, slot, edid);
      }
    }

    /**
     * `connect`; the size in centimetres is what was estimated for the mode.  If no call fails, it succeeds exactly
     * if everything is there that it takes.
     */
    method Connect(params: ConnectParams, hCm: nat, vCm: nat)
      returns (r: Outcome<ConnectResult>, ghost edid: seq<Bits.byte>, ghost c: Course)
      requires Idle() && InRange(params.mode)
      modifies this, outside
      ensures r.Died? ==> outside.Perished()
      ensures outside.Steady() && outside.Advanced()
      ensures r.Lived? ==> Idle()
      ensures old(cache).Some? ==>
                r == Lived(Err(AlreadyConnected)) && cache == old(cache) && outside.world == old(outside.world)
      ensures old(cache).None? ==> IsDiscovery(outside.trail, |old(outside.trail)|, params.requesterUid)
      ensures old(cache).None? && r.Lived? && r.value.Err? ==> GaveUp(r.value.error)
      ensures old(cache).None? && r.Lived? && r.value.Err? && outside.faults == old(outside.faults) ==> cache.None?
      ensures r.Lived? ==>
                Connects(old(outside.trail), outside.trail, old(cache), params, Configured(), edid, c, r.value)
      ensures old(cache).None? && r.Lived? ==> cache == c.Memory()
      ensures old(cache).None? && r.Lived? && r.value.Err? && c.choice.Answer().Ok? && c.sequel.entry.Ok? ==>
                Undid(c.sequel.venture.undoing, c.sequel.entry.value)
      ensures old(cache).None? && outside.faults == old(outside.faults) ==>
                r.Lived? && (r.value.Ok? <==> MayConnect(c, params, Configured()))
      ensures Succeeded(r) ==> Serves(params, edid, r.value.value, c.sequel.venture.attempt)
      ensures Succeeded(r) ==> Edid.IsBlock(edid, params.mode, hCm, vCm)
      ensures Succeeded(r) ==>
                && c.choice.Answer() == Ok((c.choice.env.value, cache.value.At()))
                && cache.value.sessionUid == c.choice.env.value.uid
    {
      if cache.Some? {
        edid, c := [], *;
        return Lived(Err(AlreadyConnected)), edid, c;
      }
      r, edid, c := ConnectNew(params, hCm, vCm);
      if r.Lived? {
        FaultlessConnect(c, old(outside.trail), params, edid);
      }
    }

    /** `status`. */
    method Status() returns (status: StrategyStatus)
      ensures status.connected == (status.phase == LifecyclePhase.Connected)
      ensures cache.None? ==> status == StrategyStatus(Disconnected, false, None)
      ensures cache.Some? ==>
                status.phase == cache.value.phase && status.session == Some((cache.value.At(), cache.value.mode))
    {
      match cache
      case None => status := StrategyStatus(Disconnected, false, None);
      case Some(c) => status := StrategyStatus(c.phase, c.phase == LifecyclePhase.Connected, Some((c.At(), c.mode)));
    }

    /** `is_authorized`: root, or whoever owns the session. */
    predicate IsAuthorized(uid: nat)
      reads this
    {
      uid == 0 || (cache.Some? && cache.value.sessionUid == uid)
    }
  }
}
