/**
 * The calls that leave the daemon, as steps of the world and as methods of an object.  Each may report
 * failure, with or without having taken effect, and the process may die before or after the effect; a
 * call that reports success has taken effect.
 */
module OutsideCalls {
  import opened Outcomes
  import opened Proto
  import opened Bits
  import opened KScreen
  import opened Layout
  import opened World
  import opened Telling
  import opened Waiting
  import opened Effects
  import Sysfs

  /** What is read in a listing: its outputs, and the names that turn up in it, in any case. */
  datatype Reading = Reading(outputs: seq<OutputInfo>, mentioned: iset<string>)

  ghost function ReadingOf(listed: Outcome<string>): Reading {
    if Succeeded(listed)
    then Reading(OutputsOf(listed.value.value), iset port | Contains(Lower(listed.value.value), Lower(port)))
    else Reading([], iset{})
  }

  /** A call with its arguments and its outcome, or something else that happens between two moments. */
  datatype Call =
    | Boots
    | Arranges
    | Takes(index: nat, memory: Option<ConnectState>)
    | Misses(index: nat)
    | Discovers(uid: nat, found: Outcome<seq<KWinEnv>>)
    | Lists(listed: Outcome<string>, reading: Reading)
    | Runs(args: seq<Arg>, r: Outcome<()>)
    | Sets(slot: Slot, on: bool, r: Outcome<()>)
    | Overrides(slot: Slot, edid: seq<byte>, r: Outcome<()>)
    | Clears(slot: Slot, r: Outcome<()>)
    | ListsCards(cards: Outcome<seq<string>>)
    | ReadsConnectors(entries: Outcome<seq<Sysfs.Entry>>)
    | Forgets(port: string, r: Outcome<()>)
    | Saves(record: ConnectState, remembered: bool, r: Outcome<()>)
    | Loads(remembered: bool, loaded: Outcome<Option<ConnectState>>)
    | Deletes(r: Outcome<()>)
  {
    /** It did not succeed, or it found any number of compositors but one. */
    predicate IsFault() {
      match this
      case Boots => false
      case Arranges => false
      case Takes(_, _) => false
      case Misses(_) => false
      case Discovers(_, found) => !(Succeeded(found) && |found.value.value| == 1)
      case Lists(listed, _) => !Succeeded(listed)
      case ListsCards(cards) => !Succeeded(cards)
      case ReadsConnectors(entries) => !Succeeded(entries)
      case Loads(_, loaded) => !Succeeded(loaded)
      case _ => !Succeeded(this.r)
    }

    /** The daemon died in it. */
    predicate IsDeath() {
      match this
      case Boots => false
      case Arranges => false
      case Takes(_, _) => false
      case Misses(_) => false
      case Discovers(_, found) => found.Died?
      case Lists(listed, _) => listed.Died?
      case ListsCards(cards) => cards.Died?
      case ReadsConnectors(entries) => entries.Died?
      case Loads(_, loaded) => loaded.Died?
      case _ => this.r.Died?
    }

    /** It reported this error. */
    predicate Reports(e: Error) {
      match this
      case Boots => false
      case Arranges => false
      case Takes(_, _) => false
      case Misses(_) => false
      case Discovers(_, found) => found == Lived(Err(e))
      case Lists(listed, _) => listed == Lived(Err(e))
      case ListsCards(cards) => cards == Lived(Err(e))
      case ReadsConnectors(entries) => entries == Lived(Err(e))
      case Loads(_, loaded) => loaded == Lived(Err(e))
      case _ => this.r == Lived(Err(e))
    }

    /**
     * With nothing in the daemon's memory, the journal was refused, or a record of a session that has to
     * be recovered could not be written.
     */
    predicate IsBreak() {
      || (Loads? && !remembered && loaded.Lived? && loaded.value.Err?)
      || (Saves? && record.phase.RecoveryRequired? && !remembered && r.Lived? && r.value.Err?)
    }
  }

  /** How the world may get from one moment to the next by a call. */
  ghost predicate Allowed(w: World, call: Call, w': World) {
    match call
    case Boots => w' == w
    case Takes(_, _) => w' == w
    case Misses(_) => w' == w
    case Arranges => w' == w.(outputs := w'.outputs)
    case Discovers(_, _) => w' == w
    case Lists(listed, _) =>
      && w' == w.(outputs := w'.outputs)
      && (w' == w || exists slot :: ComesOn(w, slot, w'.outputs))
      && (Succeeded(listed) ==> IsListing(listed.value.value, w'.outputs))
    case Runs(args, r) =>
      && w' == w.(outputs := w'.outputs)
      && RanPartly(w.outputs, args, w'.outputs)
      && (Succeeded(r) ==> RanFully(w.outputs, args, w'.outputs))
    case Sets(slot, on, r) =>
      || (w' == w && !Succeeded(r))
      || (&& w' == w.(outputs := w'.outputs, forced := if on then w.forced + {slot} else w.forced - {slot})
          && if on then PluggedIn(w.outputs, slot.port, w'.outputs) else Unplugged(w.outputs, slot.port, w'.outputs))
    case Overrides(slot, edid, r) => (w' == w && !Succeeded(r)) || w' == w.(edid := w.edid[slot := edid])
    case Clears(slot, r) => (w' == w && !Succeeded(r)) || w' == w.(edid := w.edid - {slot})
    case ListsCards(_) => w' == w
    case ReadsConnectors(entries) =>
      w' == w && (Succeeded(entries) ==> Sysfs.NoneIsOn(entries.value.value, Shown(w.outputs)))
    case Forgets(_, _) => w' == w
    case Saves(record, _, r) => (w' == w && !Succeeded(r)) || w' == w.(journal := Some(record))
    case Loads(_, loaded) => w' == w && (Succeeded(loaded) ==> loaded.value.value == w.journal)
    case Deletes(r) => (w' == w && !Succeeded(r)) || w' == w.(journal := None)
  }

  /** The output of a connector that is forced on has come on, or at least appeared. */
  predicate ComesOn(w: World, slot: Slot, outputs: Screen) {
    slot in w.forced && MayComeOn(w.outputs, slot.port) && PluggedIn(w.outputs, slot.port, outputs)
  }

  /** What a call has to respect for a covered world to stay covered. */
  ghost predicate Respects(w: World, b: Baseline, call: Call) {
    match call
    case Arranges => false
    case Runs(args, _) => w.journal.Some? && LightsOnly(args, b.Keys + {w.journal.value.port})
    case Sets(slot, _, _) => w.journal.Some? && w.journal.value.At() == slot
    case Overrides(slot, _, _) => w.journal.Some? && w.journal.value.At() == slot
    case Saves(record, _, _) => Recoverable(w, record, b)
    case Deletes(_) => Clean(w, b)
    case _ => true
  }

  /** What is written to debugfs and to the journal's file. */
  lemma WriteKeepsCovered(w: World, b: Baseline, call: Call, w': World)
    requires Covered(w, b) && Respects(w, b, call) && Allowed(w, call, w')
    requires call.Overrides? || call.Clears? || call.Saves? || call.Deletes?
    ensures Covered(w', b)
  {
  }

  /** The write-ahead invariant is kept by every allowed step of a call that respects it. */
  lemma StepKeepsCovered(w: World, b: Baseline, call: Call, w': World)
    requires Covered(w, b) && Respects(w, b, call) && Allowed(w, call, w') && Listable(w'.outputs)
    ensures Covered(w', b)
  {
    match call
    case Lists(_, _) =>
      if w' != w {
        var slot :| ComesOn(w, slot, w'.outputs);
        PlugKeepsCovered(w, b, slot.port, w'.outputs);
      }
    case Runs(args, _) => RunKeepsCovered(w, b, args, w'.outputs);
    case Sets(slot, on, _) =>
      if w' != w {
        StatusKeepsCovered(w, b, slot, on, w'.outputs);
      }
    case Overrides(_, _, _) => WriteKeepsCovered(w, b, call, w');
    case Clears(_, _) => WriteKeepsCovered(w, b, call, w');
    case Saves(_, _, _) => WriteKeepsCovered(w, b, call, w');
    case Deletes(_) => WriteKeepsCovered(w, b, call, w');
    case Arranges =>
    case Boots =>
    case Takes(_, _) =>
    case Misses(_) =>
    case Discovers(_, _) =>
    case ListsCards(_) =>
    case ReadsConnectors(_) =>
    case Forgets(_, _) =>
    case Loads(_, _) =>
  }

  // ---------------------------------------------------------------------------
  // Histories
  // ---------------------------------------------------------------------------

  /**
   * A moment between two steps and the call that led to it; how many faults and breaks there have been,
   * and how many faults there had been when a daemon was last started.
   */
  datatype Moment = Moment(world: World, baseline: Baseline, call: Call, faults: nat, breaks: nat, faultsAtBoot: nat,
                           dead: bool)

  /** The counts of the later moment follow from those of the earlier one. */
  ghost predicate CountsOn(a: Moment, b: Moment) {
    && b.faults == a.faults + (if b.call.IsFault() then 1 else 0)
    && b.breaks == a.breaks + (if b.call.IsBreak() then 1 else 0)
    && b.faultsAtBoot == (if b.call.Boots? then a.faults else a.faultsAtBoot)
    && b.dead == b.call.IsDeath()
  }

  /** The moment to which a call leads from another. */
  function After(m: Moment, w: World, call: Call): (n: Moment)
    ensures CountsOn(m, n)
  {
    Moment(w, m.baseline, call,
      m.faults + (if call.IsFault() then 1 else 0), m.breaks + (if call.IsBreak() then 1 else 0),
      if call.Boots? then m.faults else m.faultsAtBoot, call.IsDeath())
  }

  /** A listing tells of the screen, and has been read as it is. */
  ghost predicate IsFaithful(m: Moment) {
    m.call.Lists? ==>
      && m.call.reading == ReadingOf(m.call.listed)
      && (Succeeded(m.call.listed) ==> IsListing(m.call.listed.value.value, m.world.outputs))
  }

  /** The write-ahead invariant holds at this moment, which counts on from the one before. */
  ghost predicate IsSafeAt(trail: seq<Moment>, i: nat)
    requires i < |trail|
  {
    && Covered(trail[i].world, trail[i].baseline) && IsFaithful(trail[i])
    && (i > 0 ==> CountsOn(trail[i - 1], trail[i]))
  }

  /** It holds at every moment. */
  ghost predicate IsSafe(trail: seq<Moment>) { forall i | 0 <= i < |trail| :: IsSafeAt(trail, i) }

  lemma SafeGrows(trail: seq<Moment>, m: Moment)
    requires IsSafe(trail) && Covered(m.world, m.baseline) && IsFaithful(m)
    requires trail != [] ==> CountsOn(trail[|trail| - 1], m)
    ensures IsSafe(trail + [m])
  {
    forall i | 0 <= i < |trail + [m]|
      ensures IsSafeAt(trail + [m], i)
    {
      if i < |trail| {
        assert IsSafeAt(trail, i);
      }
    }
  }

  /** Every moment is covered, and the counts go on from one to the next. */
  type Trail = t: seq<Moment> | IsSafe(t) ghost witness []

  lemma LastIsCovered(trail: Trail)
    requires trail != []
    ensures Covered(trail[|trail| - 1].world, trail[|trail| - 1].baseline)
  {
    assert IsSafeAt(trail, |trail| - 1);
  }

  /** A step that is allowed and respects the session goes on from such a trail. */
  lemma GoodStepIsSafe(trail: Trail, m: Moment)
    requires trail != [] && CountsOn(trail[|trail| - 1], m) && m.baseline == trail[|trail| - 1].baseline
    requires var w := trail[|trail| - 1].world;
             Respects(w, m.baseline, m.call) && Allowed(w, m.call, m.world) && Listable(m.world.outputs)
    requires m.call.Lists? ==> m.call.reading == ReadingOf(m.call.listed)
    ensures IsSafe(trail + [m])
  {
    assert IsSafeAt(trail, |trail| - 1);
    StepKeepsCovered(trail[|trail| - 1].world, m.baseline, m.call, m.world);
    SafeGrows(trail, m);
  }

  lemma {:induction false} FaultsAddUp(trail: Trail, i: nat, j: nat)
    requires i <= j < |trail|
    ensures trail[i].faults <= trail[j].faults
    decreases j
  {
    if i < j {
      FaultsAddUp(trail, i, j - 1);
      assert IsSafeAt(trail, j);
    }
  }

  /** If the count is the same at the end, no call in between has been a fault. */
  lemma NoFaultBetween(trail: Trail, i: nat, k: nat)
    requires i < k < |trail| && trail[|trail| - 1].faults == trail[i].faults
    ensures !trail[k].call.IsFault()
  {
    FaultsAddUp(trail, i, k - 1);
    FaultsAddUp(trail, k, |trail| - 1);
    assert IsSafeAt(trail, k);
  }

  predicate IsFaultAt(trail: seq<Moment>, k: nat) { k < |trail| && trail[k].call.IsFault() }

  /** None of the calls from the nth on has failed. */
  ghost predicate Faultless(trail: seq<Moment>, n: nat) { forall k: nat | n <= k :: !IsFaultAt(trail, k) }

  lemma SameFaultsMeansFaultless(trail: Trail, n: nat)
    requires 0 < n <= |trail| && trail[|trail| - 1].faults == trail[n - 1].faults
    ensures Faultless(trail, n)
  {
    forall k: nat | n <= k
      ensures !IsFaultAt(trail, k)
    {
      if k < |trail| {
        NoFaultBetween(trail, n - 1, k);
      }
    }
  }

  lemma FaultlessSoFar(trail: seq<Moment>, later: seq<Moment>, n: nat, k: nat)
    requires trail <= later && Faultless(later, n) && n <= k
    ensures Faultless(trail, n) && Faultless(trail, k)
  {
    assert forall i: nat :: IsFaultAt(trail, i) ==> IsFaultAt(later, i);
  }

  // ---------------------------------------------------------------------------
  // Any reaction of the outputs
  // ---------------------------------------------------------------------------

  method AnyRun(s: Screen, args: seq<Arg>, fully: bool) returns (seen: Screen)
    ensures RanPartly(s, args, seen) && (fully ==> RanFully(s, args, seen))
    ensures Listable(s) ==> Listable(seen)
  {
    var k: nat := *;
    seen := *;
    if fully {
      if !(RanFully(s, args, seen) && Listable(seen)) {
        seen := Apply(s, args);
        ApplyKeepsModes(s, args);
        if Listable(s) { ListableByModes(s, seen); }
      }
      FullRunIsPartial(s, args, seen);
    } else {
      if 0 <= k <= |args| && Moved(Apply(s, args[..k]), seen, {}) && Listable(seen) {
        assert RanPartly(s, args, seen);
      } else {
        seen := s;
        assert Apply(s, args[..0]) == s && Moved(Apply(s, args[..0]), seen, {});
      }
    }
  }

  method AnyPlug(s: Screen, port: string, on: bool) returns (seen: Screen)
    ensures if on then PluggedIn(s, port, seen) else Unplugged(s, port, seen)
    ensures Listable(s) ==> Listable(seen)
  {
    seen := *;
    if on {
      if !(PluggedIn(s, port, seen) && Listable(seen)) {
        seen := s;
      }
    } else if !(Unplugged(s, port, seen) && Listable(seen)) {
      seen := s - {port};
      if Listable(s) { ListableByModes(s, seen); }
    }
  }

  method AnyListing(w: World) returns (r: Outcome<string>, w': World)
    requires Listable(w.outputs)
    ensures Allowed(w, Lists(r, ReadingOf(r)), w') && Listable(w'.outputs)
  {
    var e: Ending, slot: Slot := *, *;
    var seen := AnyPlug(w.outputs, slot.port, true);
    w' := if ComesOn(w, slot, seen) then w.(outputs := seen) else w;
    r := if e.Report().Died? then Died else Lived(Err(KscreenDoctor));
    if e.Done? {
      var text := PrintScreen(w'.outputs);
      r := Lived(Ok(text));
    }
  }

  method AnyReading(w: World) returns (r: Outcome<seq<Sysfs.Entry>>)
    ensures Allowed(w, ReadsConnectors(r), w)
  {
    var e: Ending := *;
    var entries: seq<Sysfs.Entry> := *;
    if !Sysfs.NoneIsOn(entries, Shown(w.outputs)) {
      entries := [];
    }
    match e.Report() {
    case Lived(Ok(_)) => r := Lived(Ok(entries));
    case Lived(Err(error)) => r := Lived(Err(error));
    case Died => r := Died;
    }
  }

  // ---------------------------------------------------------------------------
  // The outside world as an object
  // ---------------------------------------------------------------------------

  /**
   * Everything outside the daemon.  `Took` is the contract of every call: one allowed step, recorded
   * with what the call was told and what it answered.  The bodies take any step of the world that is allowed.
   */
  class Outside {
    var world: World
    /** What the user had arranged when the last session began, or has arranged since. */
    var baseline: Baseline
    /** Every moment there has been between two steps, each of them covered. */
    ghost var trail: Trail
    ghost var faults: nat
    ghost var breaks: nat
    ghost var faultsAtBoot: nat
    /** The last call was the death of the daemon. */
    ghost var dead: bool

    constructor (world: World, baseline: Baseline)
      requires Covered(world, baseline)
      ensures this.world == world && this.baseline == baseline
      ensures trail == [Moment(world, baseline, Boots, 0, 0, 0, false)] && Steady()
    {
      ghost var start := Moment(world, baseline, Boots, 0, 0, 0, false);
      assert IsSafeAt([start], 0);
      this.world, this.baseline := world, baseline;
      trail, faults, breaks, faultsAtBoot, dead := [start], 0, 0, 0, false;
    }

    /** The moment that is now, if this call has led to it. */
    ghost function Now(call: Call): Moment
      reads this
    {
      Moment(world, baseline, call, faults, breaks, faultsAtBoot, dead)
    }

    /** The trail leads to now; so the write-ahead invariant holds now as at every moment of it. */
    ghost predicate Steady()
      reads this
      ensures Steady() ==> Covered(world, baseline)
    {
      trail != [] && trail[|trail| - 1] == Now(trail[|trail| - 1].call) && (LastIsCovered(trail); true)
    }

    /** This call was made: one step that is allowed, and one more moment. */
    twostate predicate Took(call: Call)
      reads this
    {
      && baseline == old(baseline)
      && Allowed(old(world), call, world)
      && CountsOn(old(Now(call)), Now(call))
      && trail == old(trail) + [Now(call)]
    }

    /** Some calls later, within the life of a daemon; nothing of the past is forgotten. */
    twostate predicate Passed()
      reads this
    {
      && baseline == old(baseline) && old(trail) <= trail
      && old(faults) <= faults && old(breaks) <= breaks && faultsAtBoot == old(faultsAtBoot)
    }

    /** The daemon has died in one of the calls. */
    twostate predicate Perished()
      reads this
    {
      dead && faults > old(faults)
    }

    /** Some calls later, none of which has lost the session. */
    twostate predicate Advanced()
      reads this
    {
      Passed() && breaks == old(breaks)
    }

    /** Some moments later, with the journal, the override and the forced connectors as they were. */
    twostate predicate Worked()
      reads this
    {
      && Steady() && Advanced()
      && world == old(world).(outputs := world.outputs)
    }

    /** The same, and nothing has happened to the outputs but that the one of the session has come on. */
    twostate predicate Kept()
      reads this
    {
      && Worked()
      && (world.forced == {} ==> world.outputs == old(world.outputs))
      && (world.journal.Some? ==>
            && PluggedIn(old(world.outputs), world.journal.value.port, world.outputs)
            && (!MayComeOn(old(world.outputs), world.journal.value.port) ==> world.outputs == old(world.outputs)))
    }

    /** The moment to which this call leads. */
    ghost function Next(w: World, call: Call): Moment
      reads this
    {
      After(Now(call), w, call)
    }

    /** Goes on to the world to which this call has led. */
    method Enter(w: World, ghost call: Call)
      requires Steady() && Respects(world, baseline, call) && Allowed(world, call, w) && Listable(w.outputs)
      requires call.Lists? ==> call.reading == ReadingOf(call.listed)
      modifies this
      ensures world == w && Took(call) && Steady()
    {
      ghost var m := Next(w, call);
      GoodStepIsSafe(trail, m);
      world, faults, breaks, faultsAtBoot, dead := w, m.faults, m.breaks, m.faultsAtBoot, m.dead;
      trail := trail + [m];
    }

    // KWin ------------------------------------------------------------------

    /** Candidate sessions. */
    method Discover(uid: nat) returns (r: Outcome<seq<KWinEnv>>)
      requires Steady()
      modifies this
      ensures Took(Discovers(uid, r)) && Steady()
    {
      var e: Ending := *;
      var found: seq<KWinEnv> := *;
      match e.Report() {
      case Lived(Ok(_)) => r := Lived(Ok(found));
      case Lived(Err(error)) => r := Lived(Err(error));
      case Died => r := Died;
      }
      Enter(world, Discovers(uid, r));
    }

    /** `kscreen-doctor -o`; meanwhile KWin may notice a connector that was forced on. */
    method ListOutputs(env: KWinEnv) returns (r: Outcome<string>)
      requires Steady()
      modifies this
      ensures Took(Lists(r, ReadingOf(r))) && Steady()
    {
      var w;
      r, w := AnyListing(world);
      Enter(w, Lists(r, ReadingOf(r)));
    }

    /** `kscreen-doctor` with some arguments. */
    method Run(env: KWinEnv, args: seq<Arg>) returns (r: Outcome<()>)
      requires Steady() && Respects(world, baseline, Runs(args, Died))
      modifies this
      ensures Took(Runs(args, r)) && Steady()
    {
      var e: Ending := *;
      r := e.Report();
      var seen := AnyRun(world.outputs, args, e.TookEffect());
      var w := world.(outputs := seen);
      Enter(w, Runs(args, r));
    }

    // The kernel --------------------------------------------------------------

    /** Writes "on" or "off" to the connector's status file. */
    method SetConnectorStatus(slot: Slot, on: bool) returns (r: Outcome<()>)
      requires Steady() && Respects(world, baseline, Sets(slot, on, Died))
      modifies this
      ensures Took(Sets(slot, on, r)) && Steady()
    {
      var e: Ending := *;
      r := e.Report();
      var w := world;
      if e.TookEffect() {
        var seen := AnyPlug(w.outputs, slot.port, on);
        w := w.(outputs := seen, forced := if on then w.forced + {slot} else w.forced - {slot});
      }
      Enter(w, Sets(slot, on, r));
    }

    method WriteEdidOverride(slot: Slot, edid: seq<byte>) returns (r: Outcome<()>)
      requires Steady() && Respects(world, baseline, Overrides(slot, edid, Died))
      modifies this
      ensures Took(Overrides(slot, edid, r)) && Steady()
    {
      var e: Ending := *;
      r := e.Report();
      var w := if e.TookEffect() then world.(edid := world.edid[slot := edid]) else world;
      Enter(w, Overrides(slot, edid, r));
    }

    method ClearEdidOverride(slot: Slot) returns (r: Outcome<()>)
      requires Steady()
      modifies this
      ensures Took(Clears(slot, r)) && Steady()
    {
      var e: Ending := *;
      r := e.Report();
      var w := if e.TookEffect() then world.(edid := world.edid - {slot}) else world;
      Enter(w, Clears(slot, r));
    }

    /** The names of the cards under /dev/dri. */
    method ListDrmCards() returns (r: Outcome<seq<string>>)
      requires Steady()
      modifies this
      ensures Took(ListsCards(r)) && Steady()
    {
      var e: Ending := *;
      var cards: seq<string> := *;
      match e.Report() {
      case Lived(Ok(_)) => r := Lived(Ok(cards));
      case Lived(Err(error)) => r := Lived(Err(error));
      case Died => r := Died;
      }
      Enter(world, ListsCards(r));
    }

    /** The connectors under /sys/class/drm; an idle one is not among the outputs that are on. */
    method ReadConnectors() returns (r: Outcome<seq<Sysfs.Entry>>)
      requires Steady()
      modifies this
      ensures Took(ReadsConnectors(r)) && Steady()
    {
      r := AnyReading(world);
      Enter(world, ReadsConnectors(r));
    }

    /** KWin's own configuration file, which is not part of what is restored. */
    method ClearKwinOutputConfig(port: string, uid: nat) returns (r: Outcome<()>)
      requires Steady()
      modifies this
      ensures Took(Forgets(port, r)) && Steady()
    {
      var e: Ending := *;
      r := e.Report();
      Enter(world, Forgets(port, r));
    }

    // The journal -------------------------------------------------------------

    /** Whether the daemon's memory holds the session as well is recorded with the call. */
    method Save(s: ConnectState, ghost remembered: bool) returns (r: Outcome<()>)
      requires Steady() && Respects(world, baseline, Saves(s, remembered, Died))
      modifies this
      ensures Took(Saves(s, remembered, r)) && Steady()
    {
      var e: Ending := *;
      r := e.Report();
      var w := if e.TookEffect() then world.(journal := Some(s)) else world;
      Enter(w, Saves(s, remembered, r));
    }

    /** May be refused, on account of its permissions for example. */
    method Load(ghost remembered: bool) returns (r: Outcome<Option<ConnectState>>)
      requires Steady()
      modifies this
      ensures Took(Loads(remembered, r)) && Steady()
    {
      var e: Ending := *;
      match e.Report() {
      case Lived(Ok(_)) => r := Lived(Ok(world.journal));
      case Lived(Err(error)) => r := Lived(Err(error));
      case Died => r := Died;
      }
      Enter(world, Loads(remembered, r));
    }

    method Delete() returns (r: Outcome<()>)
      requires Steady() && Respects(world, baseline, Deletes(Died))
      modifies this
      ensures Took(Deletes(r)) && Steady()
    {
      var e: Ending := *;
      r := e.Report();
      var w := if e.TookEffect() then world.(journal := None) else world;
      Enter(w, Deletes(r));
    }

    // The machine and its user ------------------------------------------------

    /** A daemon is started. */
    method Boot()
      requires Steady()
      modifies this
      ensures Took(Boots) && world == old(world) && Steady()
    {
      Enter(world, Boots);
    }

    /** A daemon takes up the event of this index, with this in its memory. */
    method Take(ghost index: nat, ghost memory: Option<ConnectState>)
      requires Steady()
      modifies this
      ensures Took(Takes(index, memory)) && world == old(world) && Steady()
    {
      Enter(world, Takes(index, memory));
    }

    /** The event of this index finds no daemon. */
    method Miss(ghost index: nat)
      requires Steady()
      modifies this
      ensures Took(Misses(index)) && world == old(world) && Steady()
    {
      Enter(world, Misses(index));
    }

    /** The user plugs in, unplugs and rearranges monitors; this is the baseline then. */
    method Arrange(outputs: Screen, b: Baseline)
      requires Steady() && Covered(world.(outputs := outputs), b)
      modifies this
      ensures world == old(world).(outputs := outputs) && baseline == b
      ensures faults == old(faults) && breaks == old(breaks) && faultsAtBoot == old(faultsAtBoot)
      ensures trail == old(trail) + [Now(Arranges)] && Steady()
    {
      world, baseline, dead := world.(outputs := outputs), b, false;
      SafeGrows(trail, Now(Arranges));
      trail := trail + [Now(Arranges)];
    }
  }
}
