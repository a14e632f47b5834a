/** Three histories that end badly: a stranded daemon, a journal left behind, and a session that comes back. */
module Histories {
  import opened Outcomes
  import opened Proto
  import opened Text
  import opened KScreen
  import opened Layout
  import opened World
  import opened Effects
  import opened OutsideCalls
  import opened Courses
  import opened Strategy
  import Bits

  /** Every step is one the world may take, and every moment is covered. */
  ghost predicate IsHistory(h: seq<Moment>) {
    && h != [] && IsSafe(h)
    && forall i {:trigger h[i]} | 0 < i < |h| :: Allowed(h[i - 1].world, h[i].call, h[i].world)
  }

  function Extended(h: seq<Moment>, w: World, call: Call): (h': seq<Moment>)
    requires h != []
  {
    h + [After(Last(h), w, call)]
  }

  lemma HistoryStarts(m: Moment)
    requires Covered(m.world, m.baseline) && IsFaithful(m)
    ensures IsHistory([m])
  {
    assert IsSafeAt([m], 0);
  }

  lemma HistoryGrows(h: seq<Moment>, w: World, call: Call)
    requires IsHistory(h) && Allowed(Last(h).world, call, w) && Covered(w, Last(h).baseline) && !call.Lists?
    ensures IsHistory(Extended(h, w, call))
  {
    SafeGrows(h, After(Last(h), w, call));
  }

  const SUCCESS: Outcome<()> := Lived(Ok(()))
  const FAILURE: Outcome<()> := Lived(Err(Io))

  /** The history goes on with these calls, none of which changes the world. */
  function Staying(h: seq<Moment>, calls: seq<Call>): (r: seq<Moment>)
    requires h != []
    ensures |r| == |h| + |calls| && h <= r
    ensures Last(r).world == Last(h).world && Last(r).baseline == Last(h).baseline
  {
    if calls == [] then h
    else
      var n := |calls| - 1;
      Extended(Staying(h, calls[..n]), Last(h).world, calls[n])
  }

  ghost predicate MayStay(w: World, calls: seq<Call>) { forall c | c in calls :: Allowed(w, c, w) && !c.Lists? }

  lemma {:induction false} HistoryStays(h: seq<Moment>, calls: seq<Call>)
    requires IsHistory(h) && MayStay(Last(h).world, calls)
    ensures IsHistory(Staying(h, calls))
  {
    assert IsSafeAt(h, |h| - 1);
    if calls != [] {
      var n := |calls| - 1;
      HistoryStays(h, calls[..n]);
      assert calls[n] in calls;
      HistoryGrows(Staying(h, calls[..n]), Last(h).world, calls[n]);
    }
  }

  lemma {:induction false} CallsOfStaying(h: seq<Moment>, calls: seq<Call>)
    requires h != []
    ensures forall k | 0 <= k < |calls| :: Staying(h, calls)[|h| + k].call == calls[k]
  {
    if calls != [] {
      CallsOfStaying(h, calls[..|calls| - 1]);
    }
  }

  // ---------------------------------------------------------------------------
  // A stranded daemon
  // ---------------------------------------------------------------------------

  lemma PlainWords()
    ensures IsWord("1") && IsWord("uuid")
  {
  }

  lemma ListableWithoutMode(name: string, o: Output)
    requires IsConnectorId(name) && o.mode.None?
    ensures Describe(name, o).Valid()
  {
    PlainWords();
  }

  /** A screen with one monitor, in the place of every arrangement the user has made. */
  function OneMonitor(enabled: bool): Screen {
    map["DP-1" := Output(enabled, 0, 0, 1920, 1080, None)]
  }

  const LIT: Baseline := map["DP-1" := Pos(0, 0)]

  /** The layout the snapshot remembers of it. */
  function LayoutOf(enabled: bool): seq<OutputInfo> { [OutputInfo("DP-1", enabled, 0, 0, 1920, 1080)] }

  lemma OneMonitorIs(enabled: bool)
    ensures var s := OneMonitor(enabled);
            && Listable(s) && IsSnapshot(LayoutOf(enabled), s) && Shown(s) == if enabled then LIT else map[]
    ensures Target(LayoutOf(enabled)) == if enabled then LIT else map[]
  {
    var s := OneMonitor(enabled);
    ListableWithoutMode("DP-1", s["DP-1"]);
    assert LayoutOf(enabled)[0].name == "DP-1";
    SnapshotTarget(LayoutOf(enabled), s);
  }

  function ExclusiveSession(): ConnectState {
    ConnectState(Connecting, "card0", "DP-2", Mode(1920, 1080, 60), 1000, LayoutOf(true))
  }

  /** Before the session, and in it. */
  function Bright(): World { World(OneMonitor(true), map[], {}, None) }

  function Begun(): World { Bright().(journal := Some(ExclusiveSession())) }

  function Overridden(edid: seq<Bits.byte>): World {
    Begun().(edid := map[ExclusiveSession().At() := edid])
  }

  /** The only monitor has been switched off. */
  function Dark(edid: seq<Bits.byte>): World {
    Overridden(edid).(outputs := OneMonitor(false))
  }

  lemma AllCovered(edid: seq<Bits.byte>)
    ensures Covered(Bright(), LIT) && Covered(Begun(), LIT)
    ensures Covered(Overridden(edid), LIT) && Covered(Dark(edid), LIT)
  {
    OneMonitorIs(true);
    OneMonitorIs(false);
  }

  lemma SwitchedOff(edid: seq<Bits.byte>, r: Outcome<()>)
    ensures Allowed(Overridden(edid), Runs([Disable("DP-1")], r), Dark(edid))
  {
    var args, a, b := [Disable("DP-1")], OneMonitor(true), OneMonitor(false);
    OneArgument(a, args[0]);
    assert Apply(a, args) == b;
    assert RanFully(a, args, b);
    FullRunIsPartial(a, args, b);
  }

  /** An exclusive connect up to the death of the daemon while it switches the monitor off; then the next start. */
  function IntoTheDark(start: Moment, edid: seq<Bits.byte>): seq<Moment> {
    var s := ExclusiveSession();
    var begun := Extended([start], Begun(), Saves(s, false, SUCCESS));
    var overridden := Extended(begun, Overridden(edid), Overrides(s.At(), edid, SUCCESS));
    var forgotten := Extended(overridden, Overridden(edid), Forgets(s.port, SUCCESS));
    var dark := Extended(forgotten, Dark(edid), Runs([Disable("DP-1")], Died));
    var started := Extended(dark, Dark(edid), Boots);
    Extended(started, Dark(edid), Loads(false, Lived(Err(Io))))
  }

  lemma IntoTheDarkIsHistory(start: Moment, edid: seq<Bits.byte>)
    requires start.world == Bright() && start.baseline == LIT && IsFaithful(start)
    ensures IsHistory(IntoTheDark(start, edid))
  {
    AllCovered(edid);
    HistoryStarts(start);
    var s := ExclusiveSession();
    HistoryGrows([start], Begun(), Saves(s, false, SUCCESS));
    var begun := Extended([start], Begun(), Saves(s, false, SUCCESS));
    HistoryGrows(begun, Overridden(edid), Overrides(s.At(), edid, SUCCESS));
    var overridden := Extended(begun, Overridden(edid), Overrides(s.At(), edid, SUCCESS));
    HistoryGrows(overridden, Overridden(edid), Forgets(s.port, SUCCESS));
    var forgotten := Extended(overridden, Overridden(edid), Forgets(s.port, SUCCESS));
    SwitchedOff(edid, Died);
    HistoryGrows(forgotten, Dark(edid), Runs([Disable("DP-1")], Died));
    var dark := Extended(forgotten, Dark(edid), Runs([Disable("DP-1")], Died));
    HistoryGrows(dark, Dark(edid), Boots);
    HistoryGrows(Extended(dark, Dark(edid), Boots), Dark(edid), Loads(false, Lived(Err(Io))));
  }

  lemma BreaksInTheDark(start: Moment, edid: seq<Bits.byte>)
    ensures Last(IntoTheDark(start, edid))
            == Moment(Dark(edid), start.baseline, Loads(false, Lived(Err(Io))),
                      start.faults + 2, start.breaks + 1, start.faults + 1, false)
  {
  }

  lemma DarkLosesMonitor(edid: seq<Bits.byte>, s: ConnectState)
    requires s.layout == LayoutOf(false)
    ensures Shown(Dark(edid).outputs) == map[] && IsSnapshot(s.layout, Dark(edid).outputs)
    ensures !Covered(Dark(edid).(journal := Some(s)), LIT)
  {
    AllCovered(edid);
    OneMonitorIs(false);
    assert "DP-1" in LIT && Shown(Dark(edid).outputs) == map[];
    StrandedConnectLosesBaseline(Dark(edid), LIT, s);
  }

  /**
   * A daemon that dies while it switches the only monitor off, and whose successor is refused the journal,
   * leaves every output off with nothing in memory; and the snapshot a connect takes of that loses the monitor.
   */
  lemma DarkWorldIsReached(start: Moment, edid: seq<Bits.byte>, s: ConnectState)
    requires start.world == Bright() && start.baseline == LIT && s.layout == LayoutOf(false) && IsFaithful(start)
    ensures IsHistory(IntoTheDark(start, edid))
    ensures var last := Last(IntoTheDark(start, edid));
            && Shown(last.world.outputs) == map[] && last.breaks == start.breaks + 1
            && IsSnapshot(s.layout, last.world.outputs) && !Covered(last.world.(journal := Some(s)), LIT)
  {
    IntoTheDarkIsHistory(start, edid);
    BreaksInTheDark(start, edid);
    DarkLosesMonitor(edid, s);
  }

  // ---------------------------------------------------------------------------
  // A journal that is left behind
  // ---------------------------------------------------------------------------

  /** Every step is one the world may take, whether or not the moments are covered. */
  ghost predicate AreSteps(h: seq<Moment>) {
    h != [] && forall i {:trigger h[i]} | 0 < i < |h| :: Allowed(h[i - 1].world, h[i].call, h[i].world)
  }

  lemma StepsGrow(h: seq<Moment>, m: Moment)
    requires AreSteps(h) && Allowed(Last(h).world, m.call, m.world)
    ensures AreSteps(h + [m])
  {
  }

  lemma {:induction false} StepsStay(h: seq<Moment>, calls: seq<Call>)
    requires AreSteps(h) && MayStay(Last(h).world, calls)
    ensures AreSteps(Staying(h, calls))
  {
    if calls != [] {
      var n := |calls| - 1;
      StepsStay(h, calls[..n]);
      assert calls[n] in calls;
      StepsGrow(Staying(h, calls[..n]), After(Last(Staying(h, calls[..n])), Last(h).world, calls[n]));
    }
  }

  /** The monitor moved aside, and how it shows then. */
  function Aside(x: i32): Screen { map["DP-1" := Output(true, x, 0, 1920, 1080, None)] }

  function ShownAside(x: i32): Baseline { map["DP-1" := Pos(x, 0)] }

  function RollbackArgs(): seq<Arg> { RestoreArgs(ExclusiveSession().layout, ExclusiveSession().port) }

  lemma RollbackMovesBack(x: i32)
    ensures Apply(Aside(x), RollbackArgs()) == OneMonitor(true)
  {
    var args: seq<Arg> := [Position("DP-1", 0, 0), Enable("DP-1"), Disable("DP-2")];
    var layout := LayoutOf(true);
    assert layout[..0] == [];
    assert PhysicalArgs(layout, "DP-2") == [] + [args[0], args[1]];
    assert RollbackArgs() == [args[0]] + [args[1]] + [args[2]];
    OneArgument(Aside(x), args[0]);
    ApplyLast(Aside(x), [args[0]], args[1]);
    ApplyLast(Aside(x), [args[0]] + [args[1]], args[2]);
  }

  lemma RollbackRuns(w: World, x: i32)
    requires w.outputs == Aside(x)
    ensures Allowed(w, Runs(RollbackArgs(), SUCCESS), w.(outputs := OneMonitor(true)))
  {
    RollbackMovesBack(x);
    assert RanFully(w.outputs, RollbackArgs(), OneMonitor(true));
    FullRunIsPartial(w.outputs, RollbackArgs(), OneMonitor(true));
  }

  /** The steps of a cleanup after its first pass, when nothing is left to be undone. */
  function RestOfCleanup(): seq<Call> {
    var slot := ExclusiveSession().At();
    [Runs(RollbackArgs(), SUCCESS), Sets(slot, false, SUCCESS), Clears(slot, SUCCESS)]
  }

  lemma NothingToSwitchOff(w: World, slot: Slot)
    requires w.forced == {} && slot.port !in w.outputs
    ensures Allowed(w, Sets(slot, false, SUCCESS), w)
  {
    assert w.forced - {slot} == {} && w.outputs.Keys - {slot.port} == w.outputs.Keys;
    assert Unplugged(w.outputs, slot.port, w.outputs);
  }

  lemma NothingToClear(w: World, slot: Slot)
    requires w.edid == map[]
    ensures Allowed(w, Clears(slot, SUCCESS), w)
  {
    assert w.edid - {slot} == map[];
  }

  lemma RestStays()
    ensures MayStay(Begun(), RestOfCleanup())
  {
    assert Aside(0) == OneMonitor(true);
    RollbackRuns(Begun(), 0);
    assert Begun().(outputs := OneMonitor(true)) == Begun();
    NothingToSwitchOff(Begun(), ExclusiveSession().At());
    NothingToClear(Begun(), ExclusiveSession().At());
  }

  /** An override that fails, and a rollback that restores everything but cannot delete the journal. */
  function FailingOverride(): seq<Call> {
    [Overrides(ExclusiveSession().At(), [], FAILURE), Runs(RollbackArgs(), SUCCESS)] + RestOfCleanup()
    + [Deletes(FAILURE)]
  }

  lemma OverrideMayFail()
    ensures MayStay(Begun(), FailingOverride())
  {
    RestStays();
    assert RestOfCleanup()[0] in RestOfCleanup();
    forall c | c in FailingOverride()
      ensures Allowed(Begun(), c, Begun()) && !c.Lists?
    {
      assert c == FailingOverride()[0] || c in RestOfCleanup() || c == Deletes(FAILURE);
    }
  }

  /** A connect that goes no further, from its journal entry on. */
  function LeftBehind(start: Moment): seq<Moment> {
    Staying(Extended([start], Begun(), Saves(ExclusiveSession(), false, SUCCESS)), FailingOverride())
  }

  lemma LeftBehindIsHistory(start: Moment)
    requires start.world == Bright() && start.baseline == LIT && IsFaithful(start)
    ensures IsHistory(LeftBehind(start)) && Last(LeftBehind(start)).world == Begun()
    ensures Last(LeftBehind(start)).baseline == LIT
  {
    AllCovered([]);
    HistoryStarts(start);
    HistoryGrows([start], Begun(), Saves(ExclusiveSession(), false, SUCCESS));
    OverrideMayFail();
    HistoryStays(Extended([start], Begun(), Saves(ExclusiveSession(), false, SUCCESS)), FailingOverride());
  }

  lemma LeftBehindEnds(start: Moment)
    ensures Last(LeftBehind(start)).call == Deletes(FAILURE)
  {
    var calls := FailingOverride();
    CallsOfStaying(Extended([start], Begun(), Saves(ExclusiveSession(), false, SUCCESS)), calls);
    assert calls[|calls| - 1] == Deletes(FAILURE);
  }

  /**
   * The user moves the monitor aside, and a daemon is started that restores from the journal.  What it only asks,
   * the compositor and the outputs, is left out, as that leaves the world as it is.
   */
  function PutBack(h: seq<Moment>, x: i32): seq<Moment>
    requires h != []
  {
    var w := Begun().(outputs := Aside(x));
    var moved := h + [After(Last(h), w, Arranges).(baseline := ShownAside(x))];
    var loaded := Staying(moved, [Boots, Loads(false, Lived(Ok(Some(ExclusiveSession()))))]);
    var restored := Extended(loaded, Begun(), Runs(RollbackArgs(), SUCCESS));
    Extended(Staying(restored, RestOfCleanup()), Bright(), Deletes(SUCCESS))
  }

  lemma PutBackIsAllowed(h: seq<Moment>, x: i32)
    requires AreSteps(h) && Last(h).world == Begun()
    ensures AreSteps(PutBack(h, x)) && Last(PutBack(h, x)).world == Bright()
    ensures Last(PutBack(h, x)).baseline == ShownAside(x)
  {
    var w := Begun().(outputs := Aside(x));
    var moved := h + [After(Last(h), w, Arranges).(baseline := ShownAside(x))];
    StepsGrow(h, After(Last(h), w, Arranges).(baseline := ShownAside(x)));
    StepsStay(moved, [Boots, Loads(false, Lived(Ok(Some(ExclusiveSession()))))]);
    var loaded := Staying(moved, [Boots, Loads(false, Lived(Ok(Some(ExclusiveSession()))))]);
    RollbackRuns(w, x);
    StepsGrow(loaded, After(Last(loaded), Begun(), Runs(RollbackArgs(), SUCCESS)));
    var restored := Extended(loaded, Begun(), Runs(RollbackArgs(), SUCCESS));
    RestStays();
    StepsStay(restored, RestOfCleanup());
    var cleaned := Staying(restored, RestOfCleanup());
    StepsGrow(cleaned, After(Last(cleaned), Bright(), Deletes(SUCCESS)));
  }

  /**
   * A journal that could not be deleted after a rollback, and what comes of it: the user moves the monitor aside
   * while nothing of a session is left, and the next start moves it back.
   */
  lemma StaleJournalUndoesArrangement(start: Moment, x: i32)
    requires start.world == Bright() && start.baseline == LIT && IsFaithful(start) && x != 0
    ensures var h := LeftBehind(start);
            && IsHistory(h) && Last(h).call == Deletes(FAILURE)
            && Last(h).world.journal.Some? && Clean(Last(h).world, Last(h).baseline)
    ensures var last := Last(PutBack(LeftBehind(start), x));
            && AreSteps(PutBack(LeftBehind(start), x)) && last.call == Deletes(SUCCESS)
            && last.baseline == ShownAside(x) && Shown(last.world.outputs) == LIT != last.baseline
  {
    LeftBehindIsHistory(start);
    LeftBehindEnds(start);
    PutBackIsAllowed(LeftBehind(start), x);
    OneMonitorIs(true);
    assert LIT["DP-1"] != ShownAside(x)["DP-1"];
  }

  // ---------------------------------------------------------------------------
  // A session that comes back
  // ---------------------------------------------------------------------------

  /** The journal says that the session is connected. */
  function Revived(w: World, s: ConnectState): World { w.(journal := Some(s.(phase := Connected))) }

  lemma FailingRun(w: World, args: seq<Arg>)
    ensures Allowed(w, Runs(args, FAILURE), w)
  {
    assert Apply(w.outputs, args[..0]) == w.outputs;
    assert Moved(Apply(w.outputs, args[..0]), w.outputs, {});
  }

  /** The rollback after a failed save, every call of which fails without effect. */
  function FailingRollback(s: ConnectState): seq<Call> {
    var args := RestoreArgs(s.layout, s.port);
    [Runs(args, FAILURE), Runs(args, FAILURE), Sets(s.At(), false, FAILURE), Clears(s.At(), FAILURE),
     Saves(s.(phase := RecoveryRequired), true, FAILURE)]
  }

  lemma RollbackMayFail(w: World, s: ConnectState)
    ensures MayStay(w, FailingRollback(s))
  {
    FailingRun(w, RestoreArgs(s.layout, s.port));
  }

  /** The memory of a daemon whose connect has failed at the last save, and which has then restored. */
  const COMING_BACK: seq<CacheEvent> := [
    CacheEvent(None, true, false),
    CacheEvent(Some(LifecyclePhase.Connecting), false, false),
    CacheEvent(Some(LifecyclePhase.RecoveryRequired), false, true),
    CacheEvent(Some(LifecyclePhase.Connected), false, false)
  ]

  lemma ComingBackIsLawful()
    ensures Lawful(COMING_BACK)
  {
    assert Follows(COMING_BACK[2], COMING_BACK[3]);
  }

  /** The last save of a connect has replaced the journal and failed all the same. */
  function FailedCommit(start: Moment, s: ConnectState): seq<Moment> {
    Extended([start], Revived(start.world, s), Saves(s.(phase := Connected), true, FAILURE))
  }

  lemma FailedCommitIsHistory(start: Moment, s: ConnectState)
    requires IsFaithful(start) && Covered(start.world, start.baseline) && start.world.journal == Some(s)
    ensures IsHistory(FailedCommit(start, s))
  {
    HistoryStarts(start);
    HistoryGrows([start], Revived(start.world, s), Saves(s.(phase := Connected), true, FAILURE));
  }

  lemma CallsOfRollback(h: seq<Moment>, n: nat, s: ConnectState, env: KWinEnv)
    requires n + 5 <= |h| && forall k | 0 <= k < 5 :: h[n + k].call == FailingRollback(s)[k]
    ensures CleanedUp(h, n, s, Some(env), Cleanup(FAILURE, FAILURE, FAILURE, FAILURE))
    ensures h[n + 4].call == Saves(s.(phase := RecoveryRequired), true, FAILURE)
  {
    var calls := FailingRollback(s);
    assert h[n + 0].call == calls[0] && h[n + 1].call == calls[1] && h[n + 2].call == calls[2];
    assert h[n + 3].call == calls[3] && h[n + 4].call == calls[4];
  }

  /**
   * From every moment at which a session is under way and its output is on, there is a history in which the
   * last save of the connect reports failure after it has replaced the journal, and the calls of the rollback
   * and the save of the recovery fail without effect.  The session to be recovered then lies over a journal that
   * says connected, of an output that is on, and the memory may go on from recovery to connected.
   */
  lemma FailedCommitComesBack(start: Moment, s: ConnectState, env: KWinEnv) returns (h: seq<Moment>)
    requires IsFaithful(start) && Covered(start.world, start.baseline) && start.world.journal == Some(s)
    requires s.phase.Connecting? && s.port in Shown(start.world.outputs)
    ensures IsHistory(h) && |h| == 7 && h[0] == start
    ensures h[1].call == Saves(s.(phase := Connected), true, FAILURE)
    ensures CleanedUp(h, 2, s, Some(env), Cleanup(FAILURE, FAILURE, FAILURE, FAILURE))
    ensures h[6].call == Saves(s.(phase := RecoveryRequired), true, FAILURE)
    ensures IsLive(h[6].world) && IsRevivable(Some(s.(phase := RecoveryRequired)), h[6].world.journal)
    ensures Lawful(COMING_BACK)
  {
    var committed := FailedCommit(start, s);
    FailedCommitIsHistory(start, s);
    RollbackMayFail(Last(committed).world, s);
    HistoryStays(committed, FailingRollback(s));
    h := Staying(committed, FailingRollback(s));
    CallsOfStaying(committed, FailingRollback(s));
    CallsOfRollback(h, 2, s, env);
    ComingBackIsLawful();
  }

  /**
   * And the code does go on so: whenever its commit has failed, the session is left over a journal of a live
   * session, and no call fails from there on, the memory goes from recovery to connected.
   */
  method CommitThenRestore(strategy: KWinStrategy, state: ConnectState, env: KWinEnv, ghost a: Attempt)
    returns (committed: Outcome<()>, ghost v: Venture, ghost left: seq<Moment>)
    requires strategy.Underway(state) && a.Answer().Ok? && a.End() == strategy.outside.trail
    modifies strategy, strategy.outside
    ensures committed.Lived? ==>
              v.attempt == a && v.Finishes(left, state) && left != [] && left <= strategy.outside.trail
    ensures IsFailure(committed) && v.undoing.Report().Err? && IsLive(Last(left).world)
            && strategy.outside.faults == Last(left).faults ==>
              var m := |old(strategy.phases)|;
              && |strategy.phases| == m + 2
              && strategy.phases[m].phase == Some(LifecyclePhase.RecoveryRequired) && strategy.phases[m].revivable
              && strategy.phases[m + 1].phase == Some(LifecyclePhase.Connected)
  {
    left := [];
    committed, v := strategy.Commit(state, env, a);
    left := strategy.outside.trail;
    if IsFailure(committed) {
      var _, _ := strategy.Restore();
    }
  }
}
