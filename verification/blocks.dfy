/**
 * The text of a listing as a sequence of blocks, whatever their lines look like, and what both parsers
 * read from it (strategy/kwin/kscreen.rs).
 */
module Blocks {
  import opened Outcomes
  import opened Proto
  import opened Text
  import opened KScreen

  // ---------------------------------------------------------------------------
  // Going on from what has been read
  // ---------------------------------------------------------------------------

  /** Gathering the first k lines of a block onto what was gathered before. */
  function GatherFrom(g: Gathered, lines: seq<Line>, k: nat): (g': Gathered)
    requires g.Valid() && k <= |lines|
    ensures g'.Valid()
  {
    if k == 0 then g else GatherLine(GatherFrom(g, lines, k - 1), lines[k - 1])
  }

  lemma {:induction false} GatherSplits(a: seq<Line>, b: seq<Line>, k: nat)
    requires k <= |a| + |b|
    ensures Gather(a + b, k) == if k <= |a| then Gather(a, k) else GatherFrom(Gather(a, |a|), b, k - |a|)
  {
    if k > 0 {
      GatherSplits(a, b, k - 1);
    }
  }

  lemma GatherAll(a: seq<Line>, b: seq<Line>)
    ensures Gather(a + b, |a + b|) == GatherFrom(Gather(a, |a|), b, |b|)
  {
    GatherSplits(a, b, |a| + |b|);
  }

  /** Probing the first k lines of a block. */
  function ProbeFrom(p: Probe, connector: string, lines: seq<Line>, k: nat): Probe
    requires k <= |lines|
  {
    if k == 0 then p else ProbeLine(ProbeFrom(p, connector, lines, k - 1), connector, lines[k - 1])
  }

  lemma {:induction false} ProbeSplits(connector: string, a: seq<Line>, b: seq<Line>, k: nat)
    requires k <= |a| + |b|
    ensures ProbeLines(a + b, connector, k)
            == if k <= |a| then ProbeLines(a, connector, k)
               else ProbeFrom(ProbeLines(a, connector, |a|), connector, b, k - |a|)
  {
    if k > 0 {
      ProbeSplits(connector, a, b, k - 1);
    }
  }

  lemma ProbeAll(connector: string, a: seq<Line>, b: seq<Line>)
    ensures ProbeLines(a + b, connector, |a + b|) == ProbeFrom(ProbeLines(a, connector, |a|), connector, b, |b|)
  {
    ProbeSplits(connector, a, b, |a| + |b|);
  }

  lemma ClassifiedSplits(a: seq<string>, b: seq<string>)
    ensures Classified(a + b) == Classified(a) + Classified(b)
  {
  }

  // ---------------------------------------------------------------------------
  // One block
  // ---------------------------------------------------------------------------

  /** A geometry that can be parsed. */
  predicate Locates(line: Line) { line.Geometry? && line.at.Some? }

  function At(o: OutputInfo): (i32, i32, u32, u32) { (o.x, o.y, o.width, o.height) }

  /** The last geometry strictly between h and e that can be parsed is this one; without any, all is zero. */
  ghost predicate SaysGeometry(lines: seq<Line>, h: nat, e: nat, at: (i32, i32, u32, u32))
    requires e <= |lines|
  {
    || ((forall k | h < k < e :: !Locates(lines[k])) && at == (0, 0, 0, 0))
    || exists i :: h < i < e && lines[i] == Geometry(Some(at)) && forall k | i < k < e :: !Locates(lines[k])
  }

  /** What the first k lines of a block say about its output. */
  ghost predicate SaysOutput(s: seq<Line>, k: nat, o: OutputInfo)
    requires k <= |s|
  {
    (o.enabled <==> SaysEnabled(s, 0, k)) && SaysGeometry(s, 0, k, At(o))
  }

  /** A header and lines that are not headers. */
  ghost predicate IsBlock(s: seq<Line>, name: Option<string>) {
    s != [] && s[0] == Header(name) && forall k | 0 < k < |s| :: !s[k].Header?
  }

  lemma GeometryStep(lines: seq<Line>, h: nat, e: nat, at: (i32, i32, u32, u32))
    requires h < e < |lines| && SaysGeometry(lines, h, e, at)
    ensures SaysGeometry(lines, h, e + 1, if Locates(lines[e]) then lines[e].at.value else at)
  {
    if !Locates(lines[e]) && !(forall k | h < k < e :: !Locates(lines[k])) {
      var i :| h < i < e && lines[i] == Geometry(Some(at)) && forall k | i < k < e :: !Locates(lines[k]);
      assert lines[i] == Geometry(Some(at)) && forall k | i < k < e + 1 :: !Locates(lines[k]);
    }
  }

  lemma SaysOneGeometry(lines: seq<Line>, h: nat, e: nat, a: (i32, i32, u32, u32), b: (i32, i32, u32, u32))
    requires e <= |lines| && SaysGeometry(lines, h, e, a) && SaysGeometry(lines, h, e, b)
    ensures a == b
  {
    if !(forall k | h < k < e :: !Locates(lines[k])) {
      var i :| h < i < e && lines[i] == Geometry(Some(a)) && forall k | i < k < e :: !Locates(lines[k]);
      var j :| h < j < e && lines[j] == Geometry(Some(b)) && forall k | j < k < e :: !Locates(lines[k]);
      assert Locates(lines[i]) && Locates(lines[j]);
    }
  }

  lemma SaysOneMode(lines: seq<Line>, h: nat, e: nat, a: Option<ActiveMode>, b: Option<ActiveMode>)
    requires e <= |lines| && SaysMode(lines, h, e, a) && SaysMode(lines, h, e, b)
    ensures a == b
  {
    if !(forall k | h < k < e :: !lines[k].Modes?) {
      var i :| h < i < e && lines[i] == Modes(a) && forall k | i < k < e :: !lines[k].Modes?;
      var j :| h < j < e && lines[j] == Modes(b) && forall k | j < k < e :: !lines[k].Modes?;
      assert lines[i].Modes? && lines[j].Modes?;
    }
  }

  /** The output of a block as the first k lines of it make it. */
  function OutputSoFar(s: seq<Line>, name: string, k: nat): (o: OutputInfo)
    requires 0 < k <= |s|
    ensures o.name == name
  {
    if k == 1 then OutputInfo(name, false, 0, 0, 0, 0) else Described(OutputSoFar(s, name, k - 1), s[k - 1])
  }

  lemma {:induction false} OutputSoFarIsSaid(s: seq<Line>, name: string, k: nat)
    requires 0 < k <= |s|
    ensures SaysOutput(s, k, OutputSoFar(s, name, k))
  {
    if k > 1 {
      var o := OutputSoFar(s, name, k - 1);
      OutputSoFarIsSaid(s, name, k - 1);
      EnabledStep(s, 0, k - 1);
      GeometryStep(s, 0, k - 1, At(o));
    }
  }

  lemma {:induction false} GatherBlock(g: Gathered, s: seq<Line>, name: string, k: nat)
    requires g.Valid() && IsConnectorId(name) && IsBlock(s, Some(name)) && 0 < k <= |s|
    ensures GatherFrom(g, s, k) == Gathered(g.result + [OutputSoFar(s, name, k)], Some(|g.result|))
  {
    if k == 1 {
      assert GatherFrom(g, s, 0) == g;
    } else {
      GatherBlock(g, s, name, k - 1);
      var o, n := OutputSoFar(s, name, k - 1), |g.result|;
      assert (g.result + [o])[n := Described(o, s[k - 1])] == g.result + [Described(o, s[k - 1])];
    }
  }

  /** A block is gathered as the output it describes. */
  lemma BlockIsGathered(g: Gathered, s: seq<Line>, o: OutputInfo)
    requires g.Valid() && IsConnectorId(o.name) && IsBlock(s, Some(o.name)) && SaysOutput(s, |s|, o)
    ensures GatherFrom(g, s, |s|).result == g.result + [o]
  {
    GatherBlock(g, s, o.name, |s|);
    OutputSoFarIsSaid(s, o.name, |s|);
    SaysOneGeometry(s, 0, |s|, At(o), At(OutputSoFar(s, o.name, |s|)));
  }

  /** The block of an output whose name no connector has is passed over. */
  lemma {:induction false} GatherSkipped(g: Gathered, s: seq<Line>, name: Option<string>, k: nat)
    requires g.Valid() && IsBlock(s, name) && (name.Some? ==> !IsConnectorId(name.value)) && 0 < k <= |s|
    ensures GatherFrom(g, s, k) == g.(current := None)
  {
    if k == 1 {
      assert GatherFrom(g, s, 0) == g;
    } else {
      GatherSkipped(g, s, name, k - 1);
    }
  }

  lemma {:induction false} ProbeTarget(p: Probe, connector: string, s: seq<Line>, k: nat)
    requires IsBlock(s, Some(connector)) && 0 < k <= |s|
    ensures var q := ProbeFrom(p, connector, s, k);
            q.isTarget && (q.enabled <==> SaysEnabled(s, 0, k)) && SaysMode(s, 0, k, q.mode)
  {
    if k == 1 {
      assert ProbeFrom(p, connector, s, 0) == p;
    } else {
      ProbeTarget(p, connector, s, k - 1);
      EnabledStep(s, 0, k - 1);
      ModeStep(s, 0, k - 1, ProbeFrom(p, connector, s, k - 1).mode);
    }
  }

  lemma {:induction false} ProbeAnother(p: Probe, connector: string, s: seq<Line>, name: Option<string>, k: nat)
    requires IsBlock(s, name) && name != Some(connector) && 0 < k <= |s|
    ensures ProbeFrom(p, connector, s, k) == p.(isTarget := false)
  {
    if k == 1 {
      assert ProbeFrom(p, connector, s, 0) == p;
    } else {
      ProbeAnother(p, connector, s, name, k - 1);
    }
  }

  // ---------------------------------------------------------------------------
  // The whole listing
  // ---------------------------------------------------------------------------

  /**
   * The block of an output, with any lines at all, and what they say of it; or that of something
   * whose name is not a connector's.
   */
  datatype Entry =
    | Entry(info: OutputInfo, mode: Option<ActiveMode>, lines: seq<string>)
    | Skipped(lines: seq<string>)
  {
    ghost predicate Valid() {
      var s := Classified(lines);
      match this
      case Entry(info, mode, _) =>
        && IsConnectorId(info.name) && IsBlock(s, Some(info.name))
        && SaysOutput(s, |s|, info) && SaysMode(s, 0, |s|, mode)
      case Skipped(_) => exists name :: IsBlock(s, name) && (name.Some? ==> !IsConnectorId(name.value))
    }

    predicate Names(name: string) { Entry? && info.name == name }

    function Infos(): seq<OutputInfo> { if Entry? then [info] else [] }
  }

  ghost predicate AllValid(entries: seq<Entry>) { forall i | 0 <= i < |entries| :: entries[i].Valid() }

  /** The lines of these blocks, with others before them. */
  function AllLines(preface: seq<string>, entries: seq<Entry>): seq<string> {
    if entries == [] then preface
    else AllLines(preface, entries[..|entries| - 1]) + entries[|entries| - 1].lines
  }

  function Infos(entries: seq<Entry>): seq<OutputInfo> {
    if entries == [] then [] else Infos(entries[..|entries| - 1]) + entries[|entries| - 1].Infos()
  }

  lemma {:induction false} InfosOfAll(entries: seq<Entry>)
    requires forall i | 0 <= i < |entries| :: entries[i].Entry?
    ensures |Infos(entries)| == |entries| && forall i | 0 <= i < |entries| :: Infos(entries)[i] == entries[i].info
  {
    if entries != [] {
      InfosOfAll(entries[..|entries| - 1]);
    }
  }

  /** The enabled flag and the current mode of the output of this name that is listed last. */
  function Found(entries: seq<Entry>, connector: string): (bool, Option<ActiveMode>) {
    if entries == [] then (false, None)
    else
      var e := entries[|entries| - 1];
      if e.Names(connector) then (e.info.enabled, e.mode) else Found(entries[..|entries| - 1], connector)
  }

  lemma EntryIsGathered(g: Gathered, e: Entry)
    requires g.Valid() && e.Valid()
    ensures GatherFrom(g, Classified(e.lines), |e.lines|).result == g.result + e.Infos()
  {
    var b := Classified(e.lines);
    match e
    case Entry(info, _, _) => BlockIsGathered(g, b, info);
    case Skipped(_) =>
      var name :| IsBlock(b, name) && (name.Some? ==> !IsConnectorId(name.value));
      GatherSkipped(g, b, name, |b|);
  }

  lemma OneMoreGathered(a: seq<Line>, b: seq<Line>, e: Entry)
    requires e.Valid() && b == Classified(e.lines)
    ensures Gather(a + b, |a + b|).result == Gather(a, |a|).result + e.Infos()
  {
    GatherAll(a, b);
    EntryIsGathered(Gather(a, |a|), e);
  }

  lemma TargetIsProbed(connector: string, p: Probe, e: Entry)
    requires e.Valid() && e.Names(connector)
    ensures var q := ProbeFrom(p, connector, Classified(e.lines), |e.lines|);
            q.enabled == e.info.enabled && q.mode == e.mode
  {
    var b := Classified(e.lines);
    ProbeTarget(p, connector, b, |b|);
    SaysOneMode(b, 0, |b|, e.mode, ProbeFrom(p, connector, b, |b|).mode);
  }

  lemma AnotherIsProbed(connector: string, p: Probe, e: Entry)
    requires e.Valid() && !e.Names(connector) && IsConnectorId(connector)
    ensures ProbeFrom(p, connector, Classified(e.lines), |e.lines|) == p.(isTarget := false)
  {
    var b := Classified(e.lines);
    var name :| IsBlock(b, name) && name != Some(connector);
    ProbeAnother(p, connector, b, name, |b|);
  }

  lemma OneMoreProbed(connector: string, a: seq<Line>, b: seq<Line>, e: Entry)
    requires e.Valid() && IsConnectorId(connector) && b == Classified(e.lines)
    ensures var p, q := ProbeLines(a, connector, |a|), ProbeLines(a + b, connector, |a + b|);
            (q.enabled, q.mode) == if e.Names(connector) then (e.info.enabled, e.mode) else (p.enabled, p.mode)
  {
    var p := ProbeLines(a, connector, |a|);
    ProbeAll(connector, a, b);
    if e.Names(connector) {
      TargetIsProbed(connector, p, e);
    } else {
      AnotherIsProbed(connector, p, e);
    }
  }

  /** Lines before the first header. */
  ghost predicate IsPreface(lines: seq<string>) {
    forall k | 0 <= k < |lines| :: !Classified(lines)[k].Header?
  }

  lemma {:induction false} PrefaceIsIgnored(s: seq<Line>, connector: string, n: nat)
    requires n <= |s| && forall k | 0 <= k < |s| :: !s[k].Header?
    ensures Gather(s, n) == Gathered([], None) && ProbeLines(s, connector, n) == Probe(false, false, None)
  {
    if n > 0 {
      PrefaceIsIgnored(s, connector, n - 1);
    }
  }

  lemma {:induction false} EntriesAreGathered(preface: seq<string>, entries: seq<Entry>)
    requires IsPreface(preface) && AllValid(entries)
    ensures var s := Classified(AllLines(preface, entries)); Gather(s, |s|).result == Infos(entries)
  {
    if entries == [] {
      PrefaceIsIgnored(Classified(preface), "", |preface|);
    } else {
      var front, e := entries[..|entries| - 1], entries[|entries| - 1];
      EntriesAreGathered(preface, front);
      ClassifiedSplits(AllLines(preface, front), e.lines);
      OneMoreGathered(Classified(AllLines(preface, front)), Classified(e.lines), e);
    }
  }

  lemma {:induction false} EntriesAreProbed(preface: seq<string>, entries: seq<Entry>, connector: string)
    requires IsPreface(preface) && AllValid(entries) && IsConnectorId(connector)
    ensures var s := Classified(AllLines(preface, entries));
            var p := ProbeLines(s, connector, |s|);
            (p.enabled, p.mode) == Found(entries, connector)
  {
    if entries == [] {
      PrefaceIsIgnored(Classified(preface), connector, |preface|);
    } else {
      var front, e := entries[..|entries| - 1], entries[|entries| - 1];
      EntriesAreProbed(preface, front, connector);
      ClassifiedSplits(AllLines(preface, front), e.lines);
      OneMoreProbed(connector, Classified(AllLines(preface, front)), Classified(e.lines), e);
    }
  }

  /** The lines are those of these blocks, after a preface. */
  ghost predicate AreBlocks(lines: seq<string>, preface: seq<string>, entries: seq<Entry>) {
    IsPreface(preface) && AllValid(entries) && lines == AllLines(preface, entries)
  }

  /** What both parsers make of any text that consists of blocks: the outputs, in their order, and no others. */
  lemma BlocksAreRead(preface: seq<string>, entries: seq<Entry>, text: string,
                      connector: string, width: nat, height: nat, refresh: nat)
    requires AreBlocks(Lines(text), preface, entries) && IsConnectorId(connector)
    ensures OutputsOf(text) == Infos(entries)
    ensures ActiveModeIs(text, connector, width, height, refresh) <==>
              var (enabled, mode) := Found(entries, connector);
              enabled && ModeMatches(mode, width, height, refresh)
  {
    EntriesAreGathered(preface, entries);
    EntriesAreProbed(preface, entries, connector);
  }

  // ---------------------------------------------------------------------------
  // Every text consists of blocks
  // ---------------------------------------------------------------------------

  /** Lines that start with a header and have no other are the block of something. */
  lemma BlockIsEntry(lines: seq<string>) returns (e: Entry)
    requires lines != [] && Classified(lines)[0].Header?
    requires forall k | 0 < k < |lines| :: !Classified(lines)[k].Header?
    ensures e.Valid() && e.lines == lines
  {
    var s := Classified(lines);
    var name := s[0].name;
    assert IsBlock(s, name);
    if name.Some? && IsConnectorId(name.value) {
      var p := ProbeFrom(Probe(false, false, None), name.value, s, |s|);
      OutputSoFarIsSaid(s, name.value, |s|);
      ProbeTarget(Probe(false, false, None), name.value, s, |s|);
      e := Entry(OutputSoFar(s, name.value, |s|), p.mode, lines);
    } else {
      e := Skipped(lines);
    }
  }

  lemma OneMoreBlock(lines: seq<string>, h: nat, preface: seq<string>, entries: seq<Entry>, e: Entry)
    requires h <= |lines| && AreBlocks(lines[..h], preface, entries) && e.Valid() && e.lines == lines[h..]
    ensures AreBlocks(lines, preface, entries + [e])
  {
    assert (entries + [e])[..|entries|] == entries;
    assert lines[..h] + lines[h..] == lines;
  }

  /** One past the last header among the first n lines, or zero. */
  function LastHeader(s: seq<Line>, n: nat): (h: nat)
    requires n <= |s|
    ensures h <= n && (h > 0 ==> s[h - 1].Header?) && forall k | h <= k < n :: !s[k].Header?
  {
    if n == 0 || s[n - 1].Header? then n else LastHeader(s, n - 1)
  }

  lemma LastBlockIsEntry(lines: seq<string>) returns (h: nat, e: Entry)
    requires !IsPreface(lines)
    ensures h < |lines| && e.Valid() && e.lines == lines[h..]
  {
    var s := Classified(lines);
    h := LastHeader(s, |s|) - 1;
    assert forall k | 0 <= k < |lines[h..]| :: Classified(lines[h..])[k] == s[h + k];
    e := BlockIsEntry(lines[h..]);
  }

  /** Whatever a text looks like, it is a preface and blocks. */
  lemma {:induction false} EveryTextIsBlocks(lines: seq<string>) returns (preface: seq<string>, entries: seq<Entry>)
    ensures AreBlocks(lines, preface, entries)
    decreases |lines|
  {
    if IsPreface(lines) {
      preface, entries := lines, [];
    } else {
      var h, e := LastBlockIsEntry(lines);
      preface, entries := EveryTextIsBlocks(lines[..h]);
      OneMoreBlock(lines, h, preface, entries, e);
      entries := entries + [e];
    }
  }
}
