/**
 * What `kscreen-doctor` arguments do to a screen, the arguments that restore a layout, and where the
 * virtual display is placed (crates/svd-daemon/src/strategy/kwin/mod.rs).
 */
module Layout {
  import opened Outcomes
  import opened Proto
  import opened KScreen

  /** A mode as KWin lists it, with its rate as it is printed. */
  datatype ListedMode = ListedMode(width: u32, height: u32, rate: Rate, text: string)

  /** An output, with the mode that is listed as its current one, if any is. */
  datatype Output = Output(enabled: bool, x: i32, y: i32, width: u32, height: u32, mode: Option<ListedMode>)

  /** KWin's outputs by connector name. */
  type Screen = map<string, Output>

  datatype Pos = Pos(x: i32, y: i32)

  /** One `kscreen-doctor` argument: "output.NAME.position.X,Y" and so on. */
  datatype Arg =
    | Position(name: string, x: i32, y: i32)
    | Enable(name: string)
    | Disable(name: string)
    | SetMode(name: string, width: nat, height: nat, refresh: nat)

  /** The enabled outputs and where they are. */
  function Shown(s: Screen): map<string, Pos> {
    map n | n in s && s[n].enabled :: Pos(s[n].x, s[n].y)
  }

  /** The effect of an argument; which mode an output really takes is left to KWin. */
  function ApplyArg(s: Screen, a: Arg): (s': Screen)
    ensures s'.Keys == s.Keys
  {
    if a.name !in s then s
    else
      match a
      case Position(n, x, y) => s[n := s[n].(x := x, y := y)]
      case Enable(n) => s[n := s[n].(enabled := true)]
      case Disable(n) => s[n := s[n].(enabled := false)]
      case SetMode(_, _, _, _) => s
  }

  function Apply(s: Screen, args: seq<Arg>): (s': Screen)
    ensures s'.Keys == s.Keys
  {
    if args == [] then s else ApplyArg(Apply(s, args[..|args| - 1]), args[|args| - 1])
  }

  lemma ApplyLast(s: Screen, args: seq<Arg>, a: Arg)
    ensures Apply(s, args + [a]) == ApplyArg(Apply(s, args), a)
  {
    assert (args + [a])[..|args|] == args;
  }

  // ---------------------------------------------------------------------------
  // Restoring
  // ---------------------------------------------------------------------------

  /** Position and enable one remembered output, unless it is the virtual one or was off. */
  function RestoreArgsFor(o: OutputInfo, port: string): seq<Arg> {
    if o.name != port && o.enabled then [Position(o.name, o.x, o.y), Enable(o.name)] else []
  }

  function PhysicalArgs(layout: seq<OutputInfo>, port: string): seq<Arg> {
    if layout == [] then []
    else PhysicalArgs(layout[..|layout| - 1], port) + RestoreArgsFor(layout[|layout| - 1], port)
  }

  /** What `build_restore_args` builds: physical outputs first, the virtual one off at the end. */
  function RestoreArgs(layout: seq<OutputInfo>, port: string): seq<Arg> {
    PhysicalArgs(layout, port) + [Disable(port)]
  }

  method BuildRestoreArgs(layout: seq<OutputInfo>, port: string) returns (args: seq<Arg>)
    ensures args == RestoreArgs(layout, port)
  {
    args := [];
    for i := 0 to |layout|
      invariant args == PhysicalArgs(layout[..i], port)
    {
      var output := layout[i];
      assert layout[..i + 1][..i] == layout[..i];
      if output.name != port && output.enabled {
        args := args + [Position(output.name, output.x, output.y)];
        args := args + [Enable(output.name)];
      }
    }
    assert layout[..|layout|] == layout;
    args := args + [Disable(port)];
  }

  /** The enabled outputs of a remembered layout; the last entry of a name decides its position. */
  function Target(layout: seq<OutputInfo>): map<string, Pos> {
    if layout == [] then map[]
    else
      var t, o := Target(layout[..|layout| - 1]), layout[|layout| - 1];
      if o.enabled then t[o.name := Pos(o.x, o.y)] else t
  }

  lemma OneOutputEffect(s: Screen, before: seq<Arg>, o: OutputInfo, port: string, n: string)
    requires n in s
    ensures var t := Apply(s, before);
            Apply(s, before + RestoreArgsFor(o, port))[n]
            == if n == o.name && o.enabled && n != port then t[n].(enabled := true, x := o.x, y := o.y) else t[n]
  {
    if o.name != port && o.enabled {
      var a, b := Position(o.name, o.x, o.y), Enable(o.name);
      ApplyLast(s, before, a);
      ApplyLast(s, before + [a], b);
      assert before + RestoreArgsFor(o, port) == before + [a] + [b];
    } else {
      assert before + RestoreArgsFor(o, port) == before;
    }
  }

  /** An output as the physical arguments leave it, given what the layout remembers. */
  function Restored(o: Output, t: map<string, Pos>, n: string, port: string): Output {
    if n in t && n != port then o.(enabled := true, x := t[n].x, y := t[n].y) else o
  }

  /** Output by output: what the physical arguments do. */
  lemma {:induction false} PhysicalArgsEffect(s: Screen, layout: seq<OutputInfo>, port: string, n: string)
    requires n in s
    ensures Apply(s, PhysicalArgs(layout, port))[n] == Restored(s[n], Target(layout), n, port)
  {
    if layout != [] {
      var front, o := layout[..|layout| - 1], layout[|layout| - 1];
      PhysicalArgsEffect(s, front, port, n);
      OneOutputEffect(s, PhysicalArgs(front, port), o, port, n);
    }
  }

  lemma RestoreEffect(s: Screen, layout: seq<OutputInfo>, port: string, n: string)
    requires n in s
    ensures Apply(s, RestoreArgs(layout, port))[n]
            == if n == port then s[n].(enabled := false) else Restored(s[n], Target(layout), n, port)
  {
    PhysicalArgsEffect(s, layout, port, n);
    ApplyLast(s, PhysicalArgs(layout, port), Disable(port));
  }

  /** The same question for any two screens related in that way. */
  lemma ShownAfterRestore(s: Screen, s': Screen, t: map<string, Pos>, port: string)
    requires s'.Keys == s.Keys
    requires forall n | n in s ::
               s'[n] == if n == port then s[n].(enabled := false) else Restored(s[n], t, n, port)
    ensures Shown(s') == t - {port} <==> (t - {port}).Keys <= s.Keys && Shown(s).Keys <= t.Keys + {port}
  {
    if Shown(s') == t - {port} {
      forall n | n in Shown(s) && n != port
        ensures n in t
      {
        assert n in s' && s'[n].enabled;
        assert n in Shown(s');
      }
      forall n | n in t - {port}
        ensures n in s
      {
        assert n in Shown(s');
      }
    } else if (t - {port}).Keys <= s.Keys && Shown(s).Keys <= t.Keys + {port} {
      forall n
        ensures n in Shown(s') <==> n in t - {port}
        ensures n in Shown(s') ==> Shown(s')[n] == t[n]
      {
        if n in s && s[n].enabled {
          assert n in Shown(s);
        }
      }
      assert false;
    }
  }

  /**
   * Restore meaning: the arguments give back exactly the remembered enabled outputs at their
   * positions, less the virtual connector, precisely on those screens on which every one of these
   * outputs is still plugged in and nothing else but the virtual output is on.
   */
  lemma RestoreMeaningIff(s: Screen, layout: seq<OutputInfo>, port: string)
    ensures Shown(Apply(s, RestoreArgs(layout, port))) == Target(layout) - {port}
            <==> (Target(layout) - {port}).Keys <= s.Keys && Shown(s).Keys <= Target(layout).Keys + {port}
  {
    var s' := Apply(s, RestoreArgs(layout, port));
    forall n | n in s
      ensures s'[n] == if n == port then s[n].(enabled := false) else Restored(s[n], Target(layout), n, port)
    {
      RestoreEffect(s, layout, port, n);
    }
    ShownAfterRestore(s, s', Target(layout), port);
  }

  /** A second pass changes nothing at all, whatever the screen. */
  lemma RestoreIsIdempotent(s: Screen, layout: seq<OutputInfo>, port: string)
    ensures var once := Apply(s, RestoreArgs(layout, port)); Apply(once, RestoreArgs(layout, port)) == once
  {
    var once := Apply(s, RestoreArgs(layout, port));
    forall n | n in s
      ensures Apply(once, RestoreArgs(layout, port))[n] == once[n]
    {
      RestoreEffect(s, layout, port, n);
      RestoreEffect(once, layout, port, n);
    }
  }

  lemma {:induction false} PhysicalArgsOnlyLight(layout: seq<OutputInfo>, port: string)
    ensures forall a | a in PhysicalArgs(layout, port) :: a.Position? || a.Enable?
  {
    if layout != [] {
      PhysicalArgsOnlyLight(layout[..|layout| - 1], port);
    }
  }

  lemma {:induction false} LightingKeepsShown(s: Screen, args: seq<Arg>)
    requires forall a | a in args :: a.Position? || a.Enable?
    ensures Shown(s).Keys <= Shown(Apply(s, args)).Keys
  {
    if args != [] {
      LightingKeepsShown(s, args[..|args| - 1]);
    }
  }

  /**
   * Never dark: starting with some output on, every prefix of the restore arguments leaves some
   * output on, provided a remembered physical output that was on is still plugged in.
   */
  lemma RestoreNeverGoesDark(s: Screen, layout: seq<OutputInfo>, port: string, keep: string, k: nat)
    requires Shown(s) != map[]
    requires keep in Target(layout) && keep != port && keep in s
    requires k <= |RestoreArgs(layout, port)|
    ensures Shown(Apply(s, RestoreArgs(layout, port)[..k])) != map[]
  {
    var args := RestoreArgs(layout, port);
    if k < |args| {
      PhysicalArgsOnlyLight(layout, port);
      assert forall i | 0 <= i < k :: args[i] == PhysicalArgs(layout, port)[i];
      LightingKeepsShown(s, args[..k]);
      var n :| n in Shown(s);
      assert n in Shown(Apply(s, args[..k])).Keys;
    } else {
      assert args[..k] == args;
      RestoreEffect(s, layout, port, keep);
      assert keep in Shown(Apply(s, args));
    }
  }

  // ---------------------------------------------------------------------------
  // Placing the virtual output
  // ---------------------------------------------------------------------------

  /** The value a 32-bit signed integer holds after wrapping around. */
  function WrapI32(i: int): (w: i32)
    ensures -0x8000_0000 <= i < 0x8000_0000 ==> w == i
  {
    (i + 0x8000_0000) % 0x1_0000_0000 - 0x8000_0000
  }

  function RightEdge(o: OutputInfo): i32 { WrapI32(o.x + WrapI32(o.width)) }

  predicate Counts(o: OutputInfo, slot: string) { o.enabled && o.name != slot }

  /** The greatest right edge among the enabled outputs other than the slot, or zero without any. */
  ghost predicate IsRightmost(outputs: seq<OutputInfo>, slot: string, x: int) {
    && (forall o | o in outputs && o.enabled && o.name != slot :: RightEdge(o) <= x)
    && ((forall o | o in outputs && o.enabled :: o.name == slot) ==> x == 0)
    && ((exists o :: o in outputs && o.enabled && o.name != slot) ==>
          exists o :: o in outputs && o.enabled && o.name != slot && RightEdge(o) == x)
  }

  function GreatestEdge(outputs: seq<OutputInfo>, slot: string): Option<i32> {
    if outputs == [] then None
    else
      var o, before := outputs[|outputs| - 1], GreatestEdge(outputs[..|outputs| - 1], slot);
      if Counts(o, slot) && (before.None? || before.value < RightEdge(o)) then Some(RightEdge(o)) else before
  }

  function Rightmost(outputs: seq<OutputInfo>, slot: string): i32 {
    var edge := GreatestEdge(outputs, slot);
    if edge.Some? then edge.value else 0
  }

  lemma {:induction false} EdgeIsGreatest(outputs: seq<OutputInfo>, slot: string)
    ensures forall o | o in outputs && Counts(o, slot) ::
              GreatestEdge(outputs, slot).Some? && RightEdge(o) <= GreatestEdge(outputs, slot).value
    ensures GreatestEdge(outputs, slot).Some? ==>
              exists o :: o in outputs && Counts(o, slot) && RightEdge(o) == GreatestEdge(outputs, slot).value
  {
    if outputs != [] {
      EdgeIsGreatest(outputs[..|outputs| - 1], slot);
      assert Counts(outputs[|outputs| - 1], slot) ==> outputs[|outputs| - 1] in outputs;
    }
  }

  lemma RightmostIsGreatest(outputs: seq<OutputInfo>, slot: string)
    ensures IsRightmost(outputs, slot, Rightmost(outputs, slot))
  {
    EdgeIsGreatest(outputs, slot);
  }

  method VirtualX(outputs: seq<OutputInfo>, slot: string) returns (x: i32)
    ensures x == Rightmost(outputs, slot)
  {
    var edge: Option<i32> := None;
    for i := 0 to |outputs|
      invariant edge == GreatestEdge(outputs[..i], slot)
    {
      if Counts(outputs[i], slot) && (edge.None? || edge.value < RightEdge(outputs[i])) {
        edge := Some(RightEdge(outputs[i]));
      }
      assert outputs[..i + 1][..i] == outputs[..i];
    }
    assert outputs[..|outputs|] == outputs;
    x := if edge.Some? then edge.value else 0;
  }

  datatype Rect = Rect(x: int, y: int, width: nat, height: nat)

  predicate Overlap(a: Rect, b: Rect) {
    a.x < b.x + b.width && b.x < a.x + a.width && a.y < b.y + b.height && b.y < a.y + a.height
  }

  function Area(o: OutputInfo): Rect { Rect(o.x, o.y, o.width, o.height) }

  /** The edge is the sum modulo 2^32. */
  lemma RightEdgeWraps(o: OutputInfo)
    ensures (RightEdge(o) - (o.x + o.width)) % 0x1_0000_0000 == 0
  {
    var w := WrapI32(o.width);
    assert w == o.width || w == o.width - 0x1_0000_0000;
    var s := o.x + w;
    var e := WrapI32(s);
    assert e == s || e == s - 0x1_0000_0000 || e == s + 0x1_0000_0000;
  }

  lemma RightEdgeIsExact(o: OutputInfo)
    requires o.x + o.width < 0x8000_0000
    ensures RightEdge(o) == o.x + o.width
  {
    var w := WrapI32(o.width);
    assert w == o.width || w == o.width - 0x1_0000_0000;
  }

  /**
   * Placement: when the right edges fit 32 bits, a display of any size at the computed position
   * overlaps none of the enabled outputs, and no smaller x is to the right of all of them.
   */
  lemma PlacementIsLeastFree(outputs: seq<OutputInfo>, slot: string, width: nat, height: nat, other: int)
    requires forall o | o in outputs && o.enabled && o.name != slot :: o.x + o.width < 0x8000_0000
    requires exists o :: o in outputs && o.enabled && o.name != slot
    ensures var x := Rightmost(outputs, slot);
            && (forall o | o in outputs && o.enabled && o.name != slot ::
                  !Overlap(Rect(x, 0, width, height), Area(o)))
            && ((forall o | o in outputs && o.enabled && o.name != slot :: o.x + o.width <= other) ==> x <= other)
  {
    RightmostIsGreatest(outputs, slot);
    forall o | o in outputs && o.enabled && o.name != slot
      ensures RightEdge(o) == o.x + o.width
    {
      RightEdgeIsExact(o);
    }
  }
}
