/**
 * The state outside the daemon: KWin's outputs, the EDID overrides, the connectors forced on and the
 * recovery journal; and what it means for the journal to cover the state of the rest.
 */
module World {
  import opened Outcomes
  import opened Proto
  import opened Bits
  import opened Text
  import opened KScreen
  import opened Layout
  import Listing

  datatype Slot = Slot(card: string, port: string)

  /** The recovery journal's record, also kept in the daemon's memory (strategy/kwin/state.rs). */
  datatype ConnectState = ConnectState(phase: LifecyclePhase, card: string, port: string, mode: Mode,
                                       sessionUid: nat, layout: seq<OutputInfo>) {
    function At(): Slot { Slot(card, port) }
  }

  datatype World = World(outputs: Screen, edid: map<Slot, seq<byte>>, forced: set<Slot>,
                         journal: Option<ConnectState>)

  /** The enabled outputs and their positions while no session was under way. */
  type Baseline = map<string, Pos>

  // ---------------------------------------------------------------------------
  // Coverage
  // ---------------------------------------------------------------------------

  /** The outputs can be listed: their names and rates are what the format has room for. */
  predicate Listable(s: Screen) {
    forall n {:trigger Describe(n, s[n])} | n in s :: Describe(n, s[n]).Valid() && RatePrinted(s[n])
  }

  /** A sheet about the output; there are many others. */
  function Describe(name: string, o: Output): Listing.Sheet {
    var modes := if o.mode.None? then None else Some([CurrentToken(o.mode.value)]);
    Listing.Sheet("1", "uuid", OutputInfo(name, o.enabled, o.x, o.y, o.width, o.height), [], modes, 0, [])
  }

  function CurrentToken(m: ListedMode): Listing.ModeToken {
    Listing.ModeToken("1", m.width, m.height, m.text, true, false)
  }

  predicate RatePrinted(o: Output) {
    o.mode.Some? ==> IsRateText(o.mode.value.text) && RateValue(o.mode.value.text) == o.mode.value.rate
  }

  /** The outputs of the baseline are still plugged in, whether or not they are on. */
  ghost predicate Sane(w: World, b: Baseline) { Listable(w.outputs) && b.Keys <= w.outputs.Keys }

  /** Nothing of a session is left. */
  predicate Clean(w: World, b: Baseline) {
    w.edid == map[] && w.forced == {} && Shown(w.outputs) == b
  }

  /** Whatever is left of a session, this record is enough to undo it. */
  ghost predicate Recoverable(w: World, s: ConnectState, b: Baseline) {
    && Target(s.layout) == b && s.port !in b
    && w.edid.Keys <= {s.At()} && w.forced <= {s.At()}
    && Shown(w.outputs).Keys <= b.Keys + {s.port}
  }

  /** The journal is of a connected session and its output is on. */
  predicate IsLive(w: World) {
    w.journal.Some? && w.journal.value.phase.Connected? && w.journal.value.port in Shown(w.outputs)
  }

  /** The write-ahead invariant: what is not clean is covered by the journal. */
  ghost predicate Covered(w: World, b: Baseline) {
    && Sane(w, b)
    && if w.journal.None? then Clean(w, b) else Recoverable(w, w.journal.value, b)
  }

  /**
   * The write-ahead invariant spelled out: if an override is set, a connector is forced on or a
   * baseline output is off or moved, the journal names that card and slot and carries the baseline.
   */
  lemma CoverageMeansWriteAhead(w: World, b: Baseline, slot: Slot, n: string)
    requires Covered(w, b)
    ensures slot in w.edid || slot in w.forced ==> w.journal.Some? && w.journal.value.At() == slot
    ensures n in b && (n !in Shown(w.outputs) || Shown(w.outputs)[n] != b[n]) ==>
              w.journal.Some? && Target(w.journal.value.layout) == b
  {
  }

  /** A layout as the snapshot sees it: every output once, as it is. */
  ghost predicate IsSnapshot(layout: seq<OutputInfo>, s: Screen) {
    && (forall i | 0 <= i < |layout| ::
          var o := layout[i];
          && o.name in s
          && o == OutputInfo(o.name, s[o.name].enabled, s[o.name].x, s[o.name].y, s[o.name].width, s[o.name].height))
    && (forall i, j | 0 <= i < j < |layout| :: layout[i].name != layout[j].name)
    && (forall n | n in s :: exists i :: 0 <= i < |layout| && layout[i].name == n)
  }

  lemma {:induction false} TargetOfDistinct(layout: seq<OutputInfo>, n: string)
    requires forall i, j | 0 <= i < j < |layout| :: layout[i].name != layout[j].name
    ensures n in Target(layout) <==> exists i :: 0 <= i < |layout| && layout[i].name == n && layout[i].enabled
    ensures forall i | 0 <= i < |layout| && layout[i].name == n && layout[i].enabled ::
              Target(layout)[n] == Pos(layout[i].x, layout[i].y)
  {
    if layout != [] {
      TargetOfDistinct(layout[..|layout| - 1], n);
      var last := layout[|layout| - 1];
      if last.name == n && last.enabled {
        assert layout[|layout| - 1].name == n;
      }
    }
  }

  /** A snapshot remembers exactly the enabled outputs and their positions. */
  lemma SnapshotTarget(layout: seq<OutputInfo>, s: Screen)
    requires IsSnapshot(layout, s)
    ensures Target(layout) == Shown(s)
  {
    forall n
      ensures n in Target(layout) <==> n in Shown(s)
      ensures n in Shown(s) ==> Target(layout)[n] == Shown(s)[n]
    {
      TargetOfDistinct(layout, n);
      if n in s && s[n].enabled {
        var i :| 0 <= i < |layout| && layout[i].name == n;
        assert layout[i].enabled;
      }
    }
  }

  /**
   * Beginning a session: the journal entry about to be written covers the world exactly when the
   * world shows the baseline, nothing is left on another slot, and the slot is not itself in use.
   */
  lemma BeginCoversIff(w: World, b: Baseline, s: ConnectState)
    requires Sane(w, b) && IsSnapshot(s.layout, w.outputs)
    ensures Covered(w.(journal := Some(s)), b) <==>
            Shown(w.outputs) == b && w.edid.Keys <= {s.At()} && w.forced <= {s.At()} && s.port !in b
  {
    SnapshotTarget(s.layout, w.outputs);
  }

  lemma CleanSnapshotCovers(w: World, b: Baseline, s: ConnectState)
    requires Clean(w, b) && IsSnapshot(s.layout, w.outputs) && s.port !in Shown(w.outputs)
    ensures Recoverable(w, s, b)
  {
    SnapshotTarget(s.layout, w.outputs);
  }

  /**
   * The gap: a daemon whose memory is empty meets a world that is covered but not restored and takes
   * its snapshot there.  The journal it then writes has lost the baseline.
   */
  lemma StrandedConnectLosesBaseline(w: World, b: Baseline, s: ConnectState)
    requires Covered(w, b) && Shown(w.outputs) != b
    requires IsSnapshot(s.layout, w.outputs)
    ensures w.journal.Some? && Target(w.journal.value.layout) == b
    ensures Target(s.layout) != b && !Covered(w.(journal := Some(s)), b)
  {
    SnapshotTarget(s.layout, w.outputs);
  }

  /**
   * The other gap: a journal that could not be deleted over a world that is clean.  When the user then
   * rearranges the monitors, it covers the new arrangement exactly if this is the one it remembers.
   */
  lemma StaleJournalCoversIff(w: World, b: Baseline, outputs: Screen)
    requires Covered(w, b) && Clean(w, b) && w.journal.Some? && Listable(outputs)
    ensures Covered(w.(outputs := outputs), Shown(outputs)) <==> Shown(outputs) == Target(w.journal.value.layout)
  {
  }
}
