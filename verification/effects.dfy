/** What calls that leave the daemon may report, and what the compositor makes of its arguments and plugs. */
module Effects {
  import opened Outcomes
  import opened Proto
  import opened Bits
  import opened KScreen
  import opened Layout
  import opened World

  datatype Error =
    | Io
    | NoCard
    | NoSlot
    | KscreenDoctor
    | CompositorNotFound
    | AmbiguousCompositor
    | OutputDetectionTimeout
    | ModeVerificationFailed
    | NotConnected
    | AlreadyConnected
    | Other

  /** A result, or the death of the process. */
  type Outcome<T> = Fate<Result<T, Error>>

  predicate Succeeded<T>(r: Outcome<T>) { r.Lived? && r.value.Ok? }

  /** A compositor session that kscreen-doctor can be run in. */
  datatype KWinEnv = KWinEnv(uid: nat, display: string)

  /** How a mutating call ends: what it reports, and whether its effect is there. */
  datatype Ending = Done | FailedWithout | FailedAfterwards | DiedWithout | DiedAfterwards {
    predicate TookEffect() { Done? || FailedAfterwards? || DiedAfterwards? }

    function Report(): Outcome<()> {
      match this
      case Done => Lived(Ok(()))
      case FailedWithout => Lived(Err(Io))
      case FailedAfterwards => Lived(Err(Io))
      case _ => Died
    }
  }

  // What the compositor may do on its own while it carries out a request.

  /** The same outputs, the same of them on; only the pinned ones are sure not to have moved. */
  predicate Moved(a: Screen, b: Screen, pinned: set<string>) {
    && b.Keys == a.Keys
    && forall n | n in a :: b[n].enabled == a[n].enabled && (n in pinned ==> b[n].x == a[n].x && b[n].y == a[n].y)
  }

  function Pinned(args: seq<Arg>): set<string> { set a | a in args && a.Position? :: a.name }

  /** kscreen-doctor succeeded: every argument has been applied and what it positioned stays put. */
  predicate RanFully(a: Screen, args: seq<Arg>, b: Screen) { Moved(Apply(a, args), b, Pinned(args)) }

  /** kscreen-doctor was run: some of the arguments, from the first on, have been applied. */
  ghost predicate RanPartly(a: Screen, args: seq<Arg>, b: Screen) {
    exists k :: 0 <= k <= |args| && Moved(Apply(a, args[..k]), b, {})
  }

  /** The output on this connector may have appeared or come on, and the others may have moved. */
  predicate PluggedIn(a: Screen, port: string, b: Screen) {
    && a.Keys <= b.Keys <= a.Keys + {port}
    && forall n | n in a && (n != port || a[n].enabled) :: b[n].enabled == a[n].enabled
  }

  /** The output of a connector that is forced on has yet to appear or to come on. */
  predicate MayComeOn(s: Screen, port: string) { port !in s || !s[port].enabled }

  /** The output on this connector is gone; if it was off, nothing else has changed. */
  predicate Unplugged(a: Screen, port: string, b: Screen) {
    && b.Keys == a.Keys - {port}
    && forall n | n in b :: b[n].enabled == a[n].enabled && ((port in a && a[port].enabled) || b[n] == a[n])
  }

  // ---------------------------------------------------------------------------
  // Effects that keep a world covered
  // ---------------------------------------------------------------------------

  /** Only outputs of this set are ever switched on. */
  predicate LightsOnly(args: seq<Arg>, names: set<string>) { forall a | a in args && a.Enable? :: a.name in names }

  lemma {:induction false} ApplyLightsOnly(s: Screen, args: seq<Arg>, names: set<string>)
    requires Shown(s).Keys <= names && LightsOnly(args, names)
    ensures Shown(Apply(s, args)).Keys <= names
  {
    if args != [] {
      ApplyLightsOnly(s, args[..|args| - 1], names);
    }
  }

  lemma RunningLightsOnly(a: Screen, args: seq<Arg>, b: Screen, names: set<string>)
    requires Shown(a).Keys <= names && LightsOnly(args, names) && RanPartly(a, args, b)
    ensures b.Keys == a.Keys && Shown(b).Keys <= names
  {
    var k :| 0 <= k <= |args| && Moved(Apply(a, args[..k]), b, {});
    ApplyLightsOnly(a, args[..k], names);
  }

  lemma FullRunIsPartial(a: Screen, args: seq<Arg>, b: Screen)
    requires RanFully(a, args, b)
    ensures RanPartly(a, args, b)
  {
    assert args[..|args|] == args;
    assert Moved(Apply(a, args[..|args|]), b, {});
  }

  lemma {:induction false} TargetIsPinned(layout: seq<OutputInfo>, port: string, n: string)
    requires n in Target(layout) && n != port
    ensures n in Pinned(PhysicalArgs(layout, port))
  {
    var front, o := layout[..|layout| - 1], layout[|layout| - 1];
    if n in Target(front) {
      TargetIsPinned(front, port, n);
      var a :| a in PhysicalArgs(front, port) && a.Position? && a.name == n;
      assert a in PhysicalArgs(layout, port);
    } else {
      assert Position(o.name, o.x, o.y) in RestoreArgsFor(o, port);
      assert Position(o.name, o.x, o.y) in PhysicalArgs(layout, port);
    }
  }

  lemma {:induction false} PhysicalArgsLight(layout: seq<OutputInfo>, port: string)
    ensures LightsOnly(PhysicalArgs(layout, port), Target(layout).Keys)
  {
    if layout != [] {
      PhysicalArgsLight(layout[..|layout| - 1], port);
    }
  }

  /** A successful run of the restore arguments puts the baseline back on the screen. */
  lemma RestoreRunSettles(a: Screen, layout: seq<OutputInfo>, port: string, b: Screen)
    requires port !in Target(layout) && Target(layout).Keys <= a.Keys
    requires Shown(a).Keys <= Target(layout).Keys + {port}
    requires RanFully(a, RestoreArgs(layout, port), b)
    ensures Shown(b) == Target(layout)
  {
    var args := RestoreArgs(layout, port);
    var mid := Apply(a, args);
    RestoreMeaningIff(a, layout, port);
    assert Target(layout) - {port} == Target(layout);
    forall n
      ensures n in Shown(b) <==> n in Shown(mid)
      ensures n in Shown(b) ==> Shown(b)[n] == Shown(mid)[n]
    {
      if n in Shown(mid) {
        TargetIsPinned(layout, port, n);
        var p :| p in PhysicalArgs(layout, port) && p.Position? && p.name == n;
        assert p in args;
        assert n in Pinned(args);
      }
    }
  }

  lemma UnpluggingKeeps(a: Screen, port: string, b: Screen)
    requires Unplugged(a, port, b)
    ensures Shown(b).Keys <= Shown(a).Keys
    ensures !(port in a && a[port].enabled) ==> Shown(b) == Shown(a)
  {
  }

  /** The outputs that are on, apart from the one of the session. */
  function Others(s: Screen, port: string): set<string> { Shown(s).Keys - {port} }

  lemma PluggingKeepsOthers(a: Screen, port: string, b: Screen)
    requires PluggedIn(a, port, b)
    ensures Others(b, port) == Others(a, port)
  {
    forall n | n != port
      ensures n in Shown(a) <==> n in Shown(b)
    {
    }
  }

  lemma DisablingOnce(a: Screen, name: string, b: Screen)
    ensures RanFully(a, [Disable(name)], b) ==> Shown(b).Keys == Shown(a).Keys - {name}
    ensures RanPartly(a, [Disable(name)], b) ==> Shown(a).Keys - {name} <= Shown(b).Keys <= Shown(a).Keys
  {
    var args := [Disable(name)];
    assert args[..0] == [] && args[..1] == args;
    OneArgument(a, args[0]);
  }

  lemma DisablingRun(a: Screen, name: string, between: Screen, b: Screen)
    requires RanPartly(a, [Disable(name)], between) && RanFully(between, [Disable(name)], b)
    ensures Shown(b).Keys == Shown(a).Keys - {name}
  {
    DisablingOnce(a, name, between);
    DisablingOnce(between, name, b);
  }

  lemma OneArgument(s: Screen, a: Arg)
    ensures Apply(s, [a]) == ApplyArg(s, a)
  {
    assert [a] == [] + [a];
    ApplyLast(s, [], a);
  }

  /** Arguments about one output that do not switch it off look like plugging it in. */
  lemma {:induction false} ArgumentsAboutOne(s: Screen, args: seq<Arg>, port: string)
    requires forall a | a in args :: a.name == port && !a.Disable?
    ensures PluggedIn(s, port, Apply(s, args))
  {
    if args != [] {
      ArgumentsAboutOne(s, args[..|args| - 1], port);
    }
  }

  lemma RunAboutOne(a: Screen, args: seq<Arg>, port: string, b: Screen)
    requires forall a | a in args :: a.name == port && !a.Disable?
    requires RanPartly(a, args, b)
    ensures PluggedIn(a, port, b)
  {
    var k :| 0 <= k <= |args| && Moved(Apply(a, args[..k]), b, {});
    ArgumentsAboutOne(a, args[..k], port);
  }

  /** A first pass has done some of it, the second all of it. */
  ghost predicate RanTwice(a: Screen, args: seq<Arg>, between: Screen, b: Screen) {
    RanPartly(a, args, between) && RanFully(between, args, b)
  }

  ghost predicate RanAtMostTwice(a: Screen, args: seq<Arg>, b: Screen) {
    RanPartly(a, args, b) || exists between :: RanPartly(a, args, between) && RanPartly(between, args, b)
  }

  lemma RunsAboutOne(a: Screen, args: seq<Arg>, port: string, b: Screen)
    requires forall a | a in args :: a.name == port && !a.Disable?
    requires RanAtMostTwice(a, args, b)
    ensures PluggedIn(a, port, b)
  {
    if RanPartly(a, args, b) {
      RunAboutOne(a, args, port, b);
    } else {
      var between :| RanPartly(a, args, between) && RanPartly(between, args, b);
      RunAboutOne(a, args, port, between);
      RunAboutOne(between, args, port, b);
    }
  }

  /** The arguments that show the virtual output. */
  function ShowArgs(port: string, mode: Mode, x: i32): seq<Arg> {
    [SetMode(port, mode.width, mode.height, mode.refresh), Position(port, x, 0), Enable(port)]
  }

  lemma ShowingRun(a: Screen, port: string, mode: Mode, x: i32, b: Screen)
    requires RanFully(a, ShowArgs(port, mode, x), b) && port in b
    ensures b[port].enabled && b[port].x == x && b[port].y == 0
  {
    var args := ShowArgs(port, mode, x);
    assert args == [args[0]] + [args[1]] + [args[2]];
    OneArgument(a, args[0]);
    ApplyLast(a, [args[0]], args[1]);
    ApplyLast(a, [args[0]] + [args[1]], args[2]);
    assert args[1] in args && port in Pinned(args);
  }

  // Step by step: what each call may do to a covered world, it does to a world that stays covered.

  lemma RunKeepsCovered(w: World, b: Baseline, args: seq<Arg>, outputs: Screen)
    requires Covered(w, b) && w.journal.Some? && LightsOnly(args, b.Keys + {w.journal.value.port})
    requires RanPartly(w.outputs, args, outputs) && Listable(outputs)
    ensures Covered(w.(outputs := outputs), b)
  {
    RunningLightsOnly(w.outputs, args, outputs, b.Keys + {w.journal.value.port});
  }

  lemma PlugKeepsCovered(w: World, b: Baseline, port: string, outputs: Screen)
    requires Covered(w, b) && w.journal.Some? && w.journal.value.port == port
    requires PluggedIn(w.outputs, port, outputs) && Listable(outputs)
    ensures Covered(w.(outputs := outputs), b)
  {
  }

  lemma UnplugKeepsCovered(w: World, b: Baseline, port: string, outputs: Screen)
    requires Covered(w, b) && w.journal.Some? && w.journal.value.port == port
    requires Unplugged(w.outputs, port, outputs) && Listable(outputs)
    ensures Covered(w.(outputs := outputs), b)
  {
    UnpluggingKeeps(w.outputs, port, outputs);
  }

  lemma StatusKeepsCovered(w: World, b: Baseline, slot: Slot, on: bool, outputs: Screen)
    requires Covered(w, b) && w.journal.Some? && w.journal.value.At() == slot && Listable(outputs)
    requires if on then PluggedIn(w.outputs, slot.port, outputs) else Unplugged(w.outputs, slot.port, outputs)
    ensures Covered(w.(outputs := outputs, forced := if on then w.forced + {slot} else w.forced - {slot}), b)
  {
    if on {
      PlugKeepsCovered(w, b, slot.port, outputs);
    } else {
      UnplugKeepsCovered(w, b, slot.port, outputs);
    }
  }

  lemma {:induction false} ApplyKeepsModes(s: Screen, args: seq<Arg>)
    ensures forall n | n in s :: Apply(s, args)[n].mode == s[n].mode
  {
    if args != [] {
      ApplyKeepsModes(s, args[..|args| - 1]);
    }
  }

  lemma ListableByModes(s: Screen, t: Screen)
    requires Listable(s) && t.Keys <= s.Keys && forall n | n in t :: t[n].mode == s[n].mode
    ensures Listable(t)
  {
    forall n | n in t
      ensures Describe(n, t[n]).Valid() && RatePrinted(t[n])
    {
      assert Describe(n, s[n]).Valid() && Describe(n, t[n]).modes == Describe(n, s[n]).modes;
    }
  }
}
