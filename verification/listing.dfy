/** The documented `kscreen-doctor -o` format, printed, and what the parsers read back from it. */
module Listing {
  import opened Outcomes
  import opened Proto
  import opened Text
  import opened KScreen
  import opened Blocks
  import opened Trimming
  import Ansi

  /** One mode of an output: "id:WxH@rate", '*' if it is current and '!' if it is preferred. */
  datatype ModeToken = ModeToken(id: string, width: u32, height: u32, rate: string, current: bool, preferred: bool) {
    predicate Valid() {
      && IsWord(id) && ':' !in id && '*' !in id && '!' !in id
      && IsWord(rate) && '*' !in rate && '!' !in rate && IsRateText(rate)
    }

    function Marks(): string { (if current then "*" else "") + (if preferred then "!" else "") }

    function Body(): string { id + ":" + NatString(width) + "x" + NatString(height) + "@" + rate }

    function Text(): string { Body() + Marks() }

    function Active(): ActiveMode
      requires Valid()
    {
      ActiveMode(width, height, RateValue(rate))
    }
  }

  /**
   * One output as it is documented: a header, its state, perhaps its modes, its geometry, and lines about
   * other things before and after these.
   */
  datatype Sheet = Sheet(id: string, uuid: string, info: OutputInfo, before: seq<string>,
                         modes: Option<seq<ModeToken>>, gap: nat, after: seq<string>) {
    predicate Valid() {
      && IsWord(id) && IsWord(uuid) && IsConnectorId(info.name)
      && (forall i | 0 <= i < |before| :: IsRemark(before[i]))
      && (forall i | 0 <= i < |after| :: IsRemark(after[i]))
      && (modes.Some? ==> forall i | 0 <= i < |modes.value| :: modes.value[i].Valid())
    }

    function Header(): string { "Output:" + Spaced(0, [id, info.name, uuid]) }

    function State(): string { if info.enabled then "    enabled" else "    disabled" }

    function ModesLines(): seq<string> {
      if modes.None? then [] else ["    Modes:" + Spaced(gap, Tokens(modes.value))]
    }

    function GeometryLine(): string { "    Geometry: " + GeometryText(info.x, info.y, info.width, info.height) }

    function Lines(): seq<string> { [Header(), State()] + before + ModesLines() + [GeometryLine()] + after }

    /** The current mode that is listed first. */
    function CurrentMode(): Option<ActiveMode>
      requires Valid()
    {
      if modes.None? then None else FirstCurrent(modes.value)
    }

    function AsEntry(): Entry
      requires Valid()
    {
      Entry.Entry(info, CurrentMode(), Lines())
    }
  }

  /** A line about something else. */
  predicate IsRemark(line: string) { '\n' !in line && Classify(Trim(line)).Other? }

  function Tokens(modes: seq<ModeToken>): (t: seq<string>)
    ensures |t| == |modes|
  {
    seq(|modes|, i requires 0 <= i < |modes| => modes[i].Text())
  }

  function GeometryText(x: i32, y: i32, width: u32, height: u32): string {
    IntString(x) + "," + IntString(y) + " " + (NatString(width) + "x" + NatString(height))
  }

  function FirstCurrent(modes: seq<ModeToken>): Option<ActiveMode>
    requires forall i | 0 <= i < |modes| :: modes[i].Valid()
  {
    if modes == [] then None
    else if modes[0].current then Some(modes[0].Active())
    else FirstCurrent(modes[1..])
  }

  // ---------------------------------------------------------------------------
  // Characters of words
  // ---------------------------------------------------------------------------

  lemma DigitsArePlain(s: string)
    requires AllDigits(s)
    ensures IsWord(s)
    ensures forall c: char | !IsDigit(c) :: c !in s
  {
    forall i | 0 <= i < |s|
      ensures !IsSpace(s[i])
    {
      assert IsDigit(s[i]);
    }
  }

  lemma ConnectorIdIsWord(s: string)
    requires IsConnectorId(s)
    ensures IsWord(s)
  {
    forall i | 0 <= i < |s|
      ensures !IsSpace(s[i])
    {
      assert IsAlphanumeric(s[i]) || s[i] == '-' || s[i] == '_';
    }
  }

  // ---------------------------------------------------------------------------
  // One mode token
  // ---------------------------------------------------------------------------

  lemma BodyIsUnmarked(t: ModeToken)
    requires t.Valid()
    ensures IsWord(t.Body()) && '*' !in t.Body() && '!' !in t.Body()
  {
    DigitsArePlain(NatString(t.width));
    DigitsArePlain(NatString(t.height));
  }

  lemma MarkedToken(body: string, current: bool, preferred: bool)
    requires '*' !in body && '!' !in body
    ensures var s := body + ((if current then "*" else "") + (if preferred then "!" else ""));
            ParseActiveModeToken(s) == if current then ParseModeBody(body) else None
  {
    var marks := (if current then "*" else "") + (if preferred then "!" else "");
    var s := body + marks;
    assert s[..|body|] == body && s[|body|..] == marks;
    MarkerOf(body, marks);
  }

  lemma MarkerOf(body: string, marks: string)
    requires '*' !in body && '!' !in body
    requires marks != "" ==> marks[0] == '*' || marks[0] == '!'
    ensures MarkerIndex(body + marks) == |body|
  {
    var s := body + marks;
    if marks == "" {
      assert s == body;
    } else {
      IndexOfAfter(body, marks[0], marks[1..]);
      assert s == body + [marks[0]] + marks[1..];
      assert forall k | 0 <= k < |body| :: s[k] == body[k];
    }
  }

  lemma BodySplits(t: ModeToken)
    requires t.Valid()
    ensures var w, h := NatString(t.width), NatString(t.height);
            && SplitOnce(t.Body(), ':') == Some((t.id, w + "x" + h + "@" + t.rate))
            && SplitOnce(w + "x" + h + "@" + t.rate, '@') == Some((w + "x" + h, t.rate))
            && SplitOnce(w + "x" + h, 'x') == Some((w, h))
  {
    var w, h := NatString(t.width), NatString(t.height);
    DigitsArePlain(w);
    DigitsArePlain(h);
    assert t.Body() == t.id + ":" + (w + "x" + h + "@" + t.rate);
    SplitOnceAt(t.id, ':', w + "x" + h + "@" + t.rate);
    SplitOnceAt(w + "x" + h, '@', t.rate);
    SplitOnceAt(w, 'x', h);
  }

  lemma BodyParses(t: ModeToken)
    requires t.Valid()
    ensures ParseModeBody(t.Body()) == Some(t.Active())
  {
    BodySplits(t);
    ParseOfNatString(t.width);
    ParseOfNatString(t.height);
  }

  lemma TokenIsWord(t: ModeToken)
    requires t.Valid()
    ensures IsWord(t.Text())
  {
    BodyIsUnmarked(t);
  }

  lemma TokenReads(t: ModeToken)
    requires t.Valid()
    ensures ParseActiveModeToken(t.Text()) == if t.current then Some(t.Active()) else None
  {
    BodyIsUnmarked(t);
    MarkedToken(t.Body(), t.current, t.preferred);
    BodyParses(t);
  }

  lemma {:induction false} FirstActiveOfTokens(tokens: seq<string>, modes: seq<ModeToken>)
    requires |tokens| == |modes| && forall i | 0 <= i < |modes| :: modes[i].Valid() && tokens[i] == modes[i].Text()
    ensures FirstActive(tokens) == FirstCurrent(modes)
  {
    if modes != [] {
      TokenReads(modes[0]);
      FirstActiveOfTokens(tokens[1..], modes[1..]);
    }
  }

  // ---------------------------------------------------------------------------
  // One line each
  // ---------------------------------------------------------------------------

  lemma HeaderBodyReads(rest: string)
    requires rest != "" && !IsSpace(rest[|rest| - 1])
    ensures Classify(Trim("Output:" + rest))
            == Line.Header(if |Words(rest)| >= 2 then Some(Words(rest)[1]) else None)
  {
    var line := "Output:" + rest;
    assert line[0] == 'O' && line[|line| - 1] == rest[|rest| - 1];
    TrimOfIndented(0, line);
    assert Blanks(0) + line == line;
    assert "Output:" <= line && line[7..] == rest;
  }

  lemma HeaderReads(id: string, name: string, uuid: string)
    requires IsWord(id) && IsWord(uuid) && IsConnectorId(name)
    ensures '\n' !in "Output:" + Spaced(0, [id, name, uuid])
    ensures Classify(Trim("Output:" + Spaced(0, [id, name, uuid]))) == Line.Header(Some(name))
  {
    ConnectorIdIsWord(name);
    var words := [id, name, uuid];
    SpacedHasNoNewline(0, words);
    SpacedEndsInWord(0, words);
    WordsOfSpaced(0, words);
    HeaderBodyReads(Spaced(0, words));
  }

  lemma StateReads(enabled: bool)
    ensures var line := if enabled then "    enabled" else "    disabled";
            '\n' !in line && Classify(Trim(line)) == if enabled then Enabled else Disabled
  {
    var word := if enabled then "enabled" else "disabled";
    assert !("Output:" <= word) by { assert word[0] != "Output:"[0]; }
    TrimOfIndented(4, word);
    assert Blanks(4) + word == if enabled then "    enabled" else "    disabled";
  }

  lemma ModesBodyIsModes(rest: string)
    ensures Classify("Modes:" + rest) == Modes(FirstActive(Words(rest)))
  {
    var body := "Modes:" + rest;
    assert "Modes:" <= body && body[6..] == rest;
    ShapesExclude(body);
    assert body[0] == 'M';
  }

  lemma ModesBodyTrims(rest: string)
    requires rest != "" ==> !IsSpace(rest[|rest| - 1])
    ensures Trim("    Modes:" + rest) == "Modes:" + rest
  {
    var body := "Modes:" + rest;
    assert body[0] == 'M';
    assert rest == "" ==> body == "Modes:";
    assert rest != "" ==> body[|body| - 1] == rest[|rest| - 1];
    TrimOfIndented(4, body);
    assert Blanks(4) + body == "    Modes:" + rest;
  }

  lemma ModesBodyReads(rest: string)
    requires rest != "" ==> !IsSpace(rest[|rest| - 1])
    ensures Classify(Trim("    Modes:" + rest)) == Modes(FirstActive(Words(rest)))
  {
    ModesBodyTrims(rest);
    ModesBodyIsModes(rest);
  }

  lemma ModesReads(gap: nat, tokens: seq<string>)
    requires forall i | 0 <= i < |tokens| :: IsWord(tokens[i])
    ensures Classify(Trim("    Modes:" + Spaced(gap, tokens))) == Modes(FirstActive(tokens))
  {
    WordsOfSpaced(gap, tokens);
    if tokens != [] {
      SpacedEndsInWord(gap, tokens);
    }
    ModesBodyReads(Spaced(gap, tokens));
  }

  lemma ModesHaveNoNewline(gap: nat, tokens: seq<string>)
    requires forall i | 0 <= i < |tokens| :: IsWord(tokens[i])
    ensures '\n' !in "    Modes:" + Spaced(gap, tokens)
  {
    SpacedHasNoNewline(gap, tokens);
  }

  lemma IntStringIsPlain(i: int)
    ensures IsWord(IntString(i)) && ',' !in IntString(i) && ' ' !in IntString(i)
  {
    if i < 0 {
      DigitsArePlain(NatString(-i));
    } else {
      DigitsArePlain(NatString(i));
    }
  }

  lemma GeometryParses(x: i32, y: i32, width: u32, height: u32)
    ensures ParseGeometry(GeometryText(x, y, width, height)) == Some((x, y, width, height))
  {
    IntStringIsPlain(x);
    IntStringIsPlain(y);
    DigitsArePlain(NatString(width));
    SplitOnceAt(IntString(x) + "," + IntString(y), ' ', NatString(width) + "x" + NatString(height));
    SplitOnceAt(IntString(x), ',', IntString(y));
    SplitOnceAt(NatString(width), 'x', NatString(height));
    ParseOfIntString(x);
    ParseOfIntString(y);
    ParseOfNatString(width);
    ParseOfNatString(height);
  }

  lemma GeometryTextIsPlain(x: i32, y: i32, width: u32, height: u32)
    ensures var value := GeometryText(x, y, width, height);
            '\n' !in value && value != "" && !IsSpace(value[0]) && !IsSpace(value[|value| - 1])
  {
    IntStringIsPlain(x);
    IntStringIsPlain(y);
    DigitsArePlain(NatString(width));
    DigitsArePlain(NatString(height));
    var value := GeometryText(x, y, width, height);
    assert value[0] == IntString(x)[0];
    assert value[|value| - 1] == NatString(height)[|NatString(height)| - 1];
  }

  lemma GeometryLineReads(value: string)
    requires value != "" && !IsSpace(value[0]) && !IsSpace(value[|value| - 1])
    ensures Classify(Trim("    Geometry: " + value)) == Geometry(ParseGeometry(value))
  {
    var body := "Geometry: " + value;
    assert body[|body| - 1] == value[|value| - 1] && body[0] == 'G';
    TrimOfIndented(4, body);
    assert Blanks(4) + body == "    Geometry: " + value;
    TrimOfIndented(1, value);
    assert body[9..] == Blanks(1) + value;
    assert "Geometry:" <= body;
  }

  // ---------------------------------------------------------------------------
  // One block
  // ---------------------------------------------------------------------------

  /** A printed line, trimmed, says this. */
  ghost predicate Reads(line: string, says: Line) { '\n' !in line && Classify(Trim(line)) == says }

  lemma ModesLineReads(gap: nat, modes: seq<ModeToken>)
    requires forall i | 0 <= i < |modes| :: modes[i].Valid()
    ensures Reads("    Modes:" + Spaced(gap, Tokens(modes)), Modes(FirstCurrent(modes)))
  {
    forall i | 0 <= i < |modes|
      ensures IsWord(Tokens(modes)[i])
    {
      TokenIsWord(modes[i]);
    }
    FirstActiveOfTokens(Tokens(modes), modes);
    ModesHaveNoNewline(gap, Tokens(modes));
    ModesReads(gap, Tokens(modes));
  }

  lemma GeometryReads(o: OutputInfo)
    ensures Reads("    Geometry: " + GeometryText(o.x, o.y, o.width, o.height), Geometry(Some(At(o))))
  {
    var value := GeometryText(o.x, o.y, o.width, o.height);
    GeometryTextIsPlain(o.x, o.y, o.width, o.height);
    GeometryParses(o.x, o.y, o.width, o.height);
    GeometryLineReads(value);
    NoNewlineInGeometry(value);
  }

  lemma NoNewlineInGeometry(value: string)
    requires '\n' !in value
    ensures '\n' !in "    Geometry: " + value
  {
  }

  /** Each of the lines says this. */
  ghost predicate AllRead(lines: seq<string>, says: seq<Line>) {
    |lines| == |says| && forall k | 0 <= k < |lines| :: Reads(lines[k], says[k])
  }

  lemma AllReadAppended(a: seq<string>, ca: seq<Line>, b: seq<string>, cb: seq<Line>)
    requires AllRead(a, ca) && AllRead(b, cb)
    ensures AllRead(a + b, ca + cb)
  {
  }

  function Others(n: nat): seq<Line> { seq(n, _ => Other) }

  /** What the lines of a sheet say. */
  function Script(o: OutputInfo, before: nat, mode: Option<Option<ActiveMode>>, after: nat): seq<Line> {
    [Line.Header(Some(o.name)), if o.enabled then Enabled else Disabled] + Others(before)
    + (if mode.Some? then [Modes(mode.value)] else []) + [Geometry(Some(At(o)))] + Others(after)
  }

  lemma SheetReads(p: Sheet)
    requires p.Valid()
    ensures var mode := if p.modes.Some? then Some(p.CurrentMode()) else None;
            AllRead(p.Lines(), Script(p.info, |p.before|, mode, |p.after|))
  {
    var o := p.info;
    var head := [Line.Header(Some(o.name)), if o.enabled then Enabled else Disabled];
    HeaderReads(p.id, o.name, p.uuid);
    StateReads(o.enabled);
    assert AllRead([p.Header(), p.State()], head);
    assert AllRead(p.before, Others(|p.before|)) && AllRead(p.after, Others(|p.after|));
    var modes := if p.modes.Some? then [Modes(p.CurrentMode())] else [];
    if p.modes.Some? {
      ModesLineReads(p.gap, p.modes.value);
    }
    assert AllRead(p.ModesLines(), modes);
    GeometryReads(o);
    assert AllRead([p.GeometryLine()], [Geometry(Some(At(o)))]);
    AllReadAppended([p.Header(), p.State()], head, p.before, Others(|p.before|));
    AllReadAppended([p.Header(), p.State()] + p.before, head + Others(|p.before|), p.ModesLines(), modes);
    AllReadAppended([p.Header(), p.State()] + p.before + p.ModesLines(), head + Others(|p.before|) + modes,
      [p.GeometryLine()], [Geometry(Some(At(o)))]);
    AllReadAppended([p.Header(), p.State()] + p.before + p.ModesLines() + [p.GeometryLine()],
      head + Others(|p.before|) + modes + [Geometry(Some(At(o)))], p.after, Others(|p.after|));
  }

  /** Where the lines of a script are. */
  lemma ScriptShape(o: OutputInfo, before: nat, mode: Option<Option<ActiveMode>>, after: nat)
    ensures var s, g := Script(o, before, mode, after), 2 + before + (if mode.Some? then 1 else 0);
            && |s| == g + 1 + after && s[0] == Line.Header(Some(o.name))
            && s[1] == (if o.enabled then Enabled else Disabled)
            && (forall k | 2 <= k < 2 + before || g < k < |s| :: s[k] == Other)
            && (mode.Some? ==> s[2 + before] == Modes(mode.value)) && s[g] == Geometry(Some(At(o)))
  {
  }

  lemma ScriptIsBlock(o: OutputInfo, before: nat, mode: Option<Option<ActiveMode>>, after: nat)
    ensures var s := Script(o, before, mode, after);
            && IsBlock(s, Some(o.name)) && SaysOutput(s, |s|, o)
            && SaysMode(s, 0, |s|, if mode.Some? then mode.value else None)
  {
    var s, g := Script(o, before, mode, after), 2 + before + (if mode.Some? then 1 else 0);
    ScriptShape(o, before, mode, after);
    assert s[1].Enabled? ==> SaysEnabled(s, 0, |s|);
    assert s[g] == Geometry(Some(At(o))) && forall k | g < k < |s| :: !Locates(s[k]);
    if mode.Some? {
      assert s[2 + before] == Modes(mode.value) && forall k | 2 + before < k < |s| :: !s[k].Modes?;
    }
  }

  ghost predicate AreLines(lines: seq<string>) { forall k | 0 <= k < |lines| :: '\n' !in lines[k] }

  /** A sheet is the block of its output, whatever else is in it. */
  lemma SheetIsEntry(p: Sheet)
    requires p.Valid()
    ensures p.AsEntry().Valid() && AreLines(p.Lines())
  {
    var mode := if p.modes.Some? then Some(p.CurrentMode()) else None;
    SheetReads(p);
    ScriptIsBlock(p.info, |p.before|, mode, |p.after|);
    assert Classified(p.Lines()) == Script(p.info, |p.before|, mode, |p.after|);
  }

  // ---------------------------------------------------------------------------
  // The whole listing
  // ---------------------------------------------------------------------------

  predicate AllSheets(sheets: seq<Sheet>) { forall i | 0 <= i < |sheets| :: sheets[i].Valid() }

  function Entries(sheets: seq<Sheet>): (entries: seq<Entry>)
    requires AllSheets(sheets)
    ensures |entries| == |sheets| && forall i | 0 <= i < |sheets| :: entries[i] == sheets[i].AsEntry()
  {
    seq(|sheets|, i requires 0 <= i < |sheets| => sheets[i].AsEntry())
  }

  /** The text of a listing. */
  function Print(sheets: seq<Sheet>): string
    requires AllSheets(sheets)
  {
    Unlines(AllLines([], Entries(sheets)))
  }

  lemma LastOfEntries(sheets: seq<Sheet>)
    requires AllSheets(sheets) && sheets != []
    ensures var n := |sheets| - 1;
            Entries(sheets)[..n] == Entries(sheets[..n]) && Entries(sheets)[n] == sheets[n].AsEntry()
  {
  }

  lemma SheetsAreEntries(sheets: seq<Sheet>)
    requires AllSheets(sheets)
    ensures AllValid(Entries(sheets))
  {
    forall i | 0 <= i < |sheets|
      ensures Entries(sheets)[i].Valid()
    {
      SheetIsEntry(sheets[i]);
    }
  }

  lemma LinesAppended(a: seq<string>, b: seq<string>)
    requires AreLines(a) && AreLines(b)
    ensures AreLines(a + b)
  {
  }

  lemma {:induction false} SheetLinesAreLines(sheets: seq<Sheet>)
    requires AllSheets(sheets)
    ensures AreLines(AllLines([], Entries(sheets)))
  {
    if sheets != [] {
      var front, last := sheets[..|sheets| - 1], sheets[|sheets| - 1];
      SheetLinesAreLines(front);
      SheetIsEntry(last);
      LastOfEntries(sheets);
      LinesAppended(AllLines([], Entries(front)), last.Lines());
    }
  }

  lemma PrintIsBlocks(sheets: seq<Sheet>)
    requires AllSheets(sheets)
    ensures AreBlocks(Lines(Print(sheets)), [], Entries(sheets))
  {
    SheetsAreEntries(sheets);
    SheetLinesAreLines(sheets);
    LinesOfUnlines(AllLines([], Entries(sheets)));
  }

  lemma InfosOfSheets(sheets: seq<Sheet>)
    requires AllSheets(sheets)
    ensures Infos(Entries(sheets)) == seq(|sheets|, i requires 0 <= i < |sheets| => sheets[i].info)
  {
    InfosOfAll(Entries(sheets));
  }

  /**
   * What the daemon reads of any text at all, coloured with complete control sequences anywhere: the outputs
   * of its blocks in their order, and for a mode that of the output of this name that is listed last.
   */
  lemma ColouredBlocksAreRead(preface: seq<string>, entries: seq<Entry>, pieces: seq<Ansi.Piece>, connector: string,
                              width: nat, height: nat, refresh: nat)
    requires forall i | 0 <= i < |pieces| :: pieces[i].Valid()
    requires AreBlocks(Lines(Ansi.Shown(pieces)), preface, entries) && IsConnectorId(connector)
    ensures var text := Trim(Ansi.Strip(Ansi.Raw(pieces)));
            && OutputsOf(text) == Infos(entries)
            && (ActiveModeIs(text, connector, width, height, refresh) <==>
                  var (enabled, mode) := Found(entries, connector);
                  enabled && ModeMatches(mode, width, height, refresh))
  {
    Ansi.ControlsAreErased(pieces);
    TrimReadsAlike(Ansi.Shown(pieces));
    BlocksAreRead(preface, entries, Ansi.Shown(pieces), connector, width, height, refresh);
  }

  /**
   * Layout round trip.  Take any list of outputs in the documented format, negative coordinates and
   * unknown lines included, colour its text with complete control sequences anywhere, and let the
   * daemon read it: it gets the list back, and verifying a mode asks exactly about the output of
   * that name that is listed last, its enabled flag and its current mode.
   */
  lemma ListingRoundTrip(sheets: seq<Sheet>, pieces: seq<Ansi.Piece>, connector: string,
                         width: nat, height: nat, refresh: nat)
    requires AllSheets(sheets) && IsConnectorId(connector)
    requires forall i | 0 <= i < |pieces| :: pieces[i].Valid()
    requires Ansi.Shown(pieces) == Print(sheets)
    ensures var text := Trim(Ansi.Strip(Ansi.Raw(pieces)));
            && OutputsOf(text) == seq(|sheets|, i requires 0 <= i < |sheets| => sheets[i].info)
            && (ActiveModeIs(text, connector, width, height, refresh) <==>
                  var (enabled, mode) := Found(Entries(sheets), connector);
                  enabled && ModeMatches(mode, width, height, refresh))
  {
    PrintIsBlocks(sheets);
    InfosOfSheets(sheets);
    ColouredBlocksAreRead([], Entries(sheets), pieces, connector, width, height, refresh);
  }
}
