/** The text layer over `kscreen-doctor` (crates/svd-daemon/src/strategy/kwin/kscreen.rs). */
module KScreen {
  import opened Outcomes
  import opened Proto
  import opened Text

  /** One output of the layout as the daemon remembers it. */
  datatype OutputInfo = OutputInfo(name: string, enabled: bool, x: i32, y: i32, width: u32, height: u32)

  // ---------------------------------------------------------------------------
  // Pieces of a line
  // ---------------------------------------------------------------------------

  predicate IsHeader(line: string) { "Output:" <= line }

  predicate IsModes(line: string) { "Modes:" <= line }

  predicate IsGeometry(line: string) { "Geometry:" <= line }

  /** The second word after "Output:", which names the connector. */
  function HeaderName(line: string): Option<string>
    requires IsHeader(line)
  {
    var parts := Words(line[7..]);
    if |parts| >= 2 then Some(parts[1]) else None
  }

  /** "x,y WxH" */
  function ParseGeometry(s: string): Option<(i32, i32, u32, u32)> {
    match SplitOnce(s, ' ')
    case None => None
    case Some((pos, size)) =>
      match (SplitOnce(pos, ','), SplitOnce(size, 'x'))
      case (Some((xs, ys)), Some((ws, hs))) =>
        (match (ParseI32(xs), ParseI32(ys), ParseU32(ws), ParseU32(hs))
         case (Some(x), Some(y), Some(w), Some(h)) => Some((x, y, w, h))
         case _ => None)
      case _ => None
  }

  /** A parsed 64-bit float: a number, or one of the values no number is within half a hertz of. */
  datatype Rate = Finite(hz: real) | NotFinite

  datatype ActiveMode = ActiveMode(width: u32, height: u32, rate: Rate)

  function LowerChar(c: char): char {
    if 'A' <= c <= 'Z' then ((c as int) + 32) as char else c
  }

  function Lower(s: string): (t: string)
    ensures |t| == |s|
  {
    seq(|s|, i requires 0 <= i < |s| => LowerChar(s[i]))
  }

  function PowerOfTen(n: int): real
    decreases if n < 0 then -n else n
  {
    if n == 0 then 1.0 else if n > 0 then 10.0 * PowerOfTen(n - 1) else PowerOfTen(n + 1) / 10.0
  }

  function Unsigned(s: string): string { if "+" <= s || "-" <= s then s[1..] else s }

  /** Digits with at most one point among them. */
  predicate IsMantissa(s: string) {
    var i := IndexOf(s, '.');
    AllDigits(s[..i] + if i < |s| then s[i + 1..] else "")
  }

  predicate IsSpecial(body: string) { body == "inf" || body == "infinity" || body == "nan" }

  /** What `str::parse::<f64>` accepts. */
  predicate IsRateText(s: string) { IsSpecial(Lower(Unsigned(s))) || IsNumber(Lower(Unsigned(s))) }

  /** A mantissa and perhaps an exponent. */
  predicate IsNumber(body: string) {
    var e := IndexOf(body, 'e');
    IsMantissa(body[..e]) && (e < |body| ==> AllDigits(Unsigned(body[e + 1..])))
  }

  /** The digits of a mantissa. */
  function MantissaDigits(s: string): (digits: string)
    requires IsMantissa(s)
    ensures AllDigits(digits)
  {
    var i := IndexOf(s, '.');
    s[..i] + if i < |s| then s[i + 1..] else ""
  }

  /** How many of them are after the point. */
  function Places(s: string): nat {
    var i := IndexOf(s, '.');
    if i < |s| then |s| - i - 1 else 0
  }

  function ExponentValue(s: string): int
    requires AllDigits(Unsigned(s))
  {
    if "-" <= s then 0 - DigitsValue(Unsigned(s)) else DigitsValue(Unsigned(s))
  }

  /** The power of ten that the digits of the mantissa are to be multiplied by. */
  function PowerOf(body: string): int
    requires IsNumber(body)
  {
    var e := IndexOf(body, 'e');
    (if e < |body| then ExponentValue(body[e + 1..]) else 0) - Places(body[..e])
  }

  function DigitsOf(body: string): (digits: string)
    requires IsNumber(body)
    ensures AllDigits(digits)
  {
    MantissaDigits(body[..IndexOf(body, 'e')])
  }

  function Scaled(n: nat, power: int): real { n as real * PowerOfTen(power) }

  function NumberValue(body: string): real
    requires IsNumber(body)
  {
    Scaled(DigitsValue(DigitsOf(body)), PowerOf(body))
  }

  /** Its value without the rounding. */
  function RateValue(s: string): Rate
    requires IsRateText(s)
  {
    var body := Lower(Unsigned(s));
    if IsSpecial(body) then NotFinite
    else Finite(if "-" <= s then 0.0 - NumberValue(body) else NumberValue(body))
  }

  function ParseRate(s: string): Option<Rate> { if IsRateText(s) then Some(RateValue(s)) else None }

  /** The position of the first '*' or '!', or the length of the token. */
  function MarkerIndex(token: string): (i: nat)
    ensures i <= |token|
  {
    var star, bang := IndexOf(token, '*'), IndexOf(token, '!');
    if star < bang then star else bang
  }

  /** "id:WxH@rate" */
  function ParseModeBody(body: string): Option<ActiveMode> {
    match SplitOnce(body, ':')
    case None => None
    case Some((_, mode)) =>
      match SplitOnce(mode, '@')
      case None => None
      case Some((size, rate)) =>
        match SplitOnce(size, 'x')
        case None => None
        case Some((ws, hs)) =>
          match (ParseU32(ws), ParseU32(hs), ParseRate(rate))
          case (Some(w), Some(h), Some(r)) => Some(ActiveMode(w, h, r))
          case _ => None
  }

  /** A mode followed by marks among which is the '*' of the current one. */
  function ParseActiveModeToken(token: string): Option<ActiveMode> {
    var marker := MarkerIndex(token);
    if '*' !in token[marker..] then None else ParseModeBody(token[..marker])
  }

  function FirstActive(tokens: seq<string>): Option<ActiveMode> {
    if tokens == [] then None
    else if ParseActiveModeToken(tokens[0]).Some? then ParseActiveModeToken(tokens[0])
    else FirstActive(tokens[1..])
  }

  /** The tolerance of the mode verification: at most half a hertz either way. */
  predicate RateMatches(rate: real, refresh: nat) {
    -0.5 <= rate - refresh as real <= 0.5
  }

  predicate ModeMatches(mode: Option<ActiveMode>, width: nat, height: nat, refresh: nat) {
    && mode.Some? && mode.value.width == width && mode.value.height == height
    && mode.value.rate.Finite? && RateMatches(mode.value.rate.hz, refresh)
  }

  // ---------------------------------------------------------------------------
  // What a line says
  // ---------------------------------------------------------------------------

  datatype Line =
    | Header(name: Option<string>)
    | Enabled
    | Disabled
    | Geometry(at: Option<(i32, i32, u32, u32)>)
    | Modes(active: Option<ActiveMode>)
    | Other

  /** Both parsers look for these shapes, in this order, in the trimmed line. */
  function Classify(line: string): Line {
    if IsHeader(line) then Header(HeaderName(line))
    else if line == "enabled" then Enabled
    else if line == "disabled" then Disabled
    else if IsGeometry(line) then Geometry(ParseGeometry(Trim(line[9..])))
    else if IsModes(line) then Modes(FirstActive(Words(line[6..])))
    else Other
  }

  lemma ShapesExclude(line: string)
    ensures !(IsGeometry(line) && IsModes(line))
  {
    if IsGeometry(line) {
      assert line[0] == "Geometry:"[0];
    }
  }

  function Classified(lines: seq<string>): (c: seq<Line>)
    ensures |c| == |lines| && forall i | 0 <= i < |lines| :: c[i] == Classify(Trim(lines[i]))
  {
    seq(|lines|, i requires 0 <= i < |lines| => Classify(Trim(lines[i])))
  }

  // ---------------------------------------------------------------------------
  // Layout parser
  // ---------------------------------------------------------------------------

  /** What `parse_outputs` has gathered: the outputs, and the index of the one being described. */
  datatype Gathered = Gathered(result: seq<OutputInfo>, current: Option<nat>) {
    ghost predicate Valid() { current.Some? ==> current.value + 1 == |result| }
  }

  /** The output after a line of its block. */
  function Described(o: OutputInfo, line: Line): (o': OutputInfo)
    ensures o'.name == o.name
  {
    match line
    case Enabled => o.(enabled := true)
    case Disabled => o.(enabled := false)
    case Geometry(Some((x, y, w, h))) => o.(x := x, y := y, width := w, height := h)
    case _ => o
  }

  function GatherLine(g: Gathered, line: Line): (g': Gathered)
    requires g.Valid()
    ensures g'.Valid()
  {
    if line.Header? then
      if line.name.Some? && IsConnectorId(line.name.value)
      then Gathered(g.result + [OutputInfo(line.name.value, false, 0, 0, 0, 0)], Some(|g.result|))
      else g.(current := None)
    else if g.current.None? then g
    else
      var i := g.current.value;
      g.(result := g.result[i := Described(g.result[i], line)])
  }

  /** The first n lines gathered. */
  function Gather(lines: seq<Line>, n: nat): (g: Gathered)
    requires n <= |lines|
    ensures g.Valid()
  {
    if n == 0 then Gathered([], None) else GatherLine(Gather(lines, n - 1), lines[n - 1])
  }

  /** What `parse_outputs` makes of a text. */
  function OutputsOf(text: string): seq<OutputInfo> {
    var lines := Classified(Lines(text));
    Gather(lines, |lines|).result
  }

  predicate IsSaid(lines: seq<string>, says: seq<Line>, i: nat) {
    i < |lines| && i < |says| ==> says[i] == Classify(Trim(lines[i]))
  }

  /** This is what the lines say, when they are trimmed. */
  ghost predicate AreSaid(lines: seq<string>, says: seq<Line>) {
    |says| == |lines| && forall i: nat :: IsSaid(lines, says, i)
  }

  method ParseOutputs(text: string) returns (result: seq<OutputInfo>)
    ensures result == OutputsOf(text)
  {
    var lines := Lines(text);
    ghost var says := Classified(lines);
    result := ParseLines(lines, says);
  }

  method ParseLines(lines: seq<string>, ghost says: seq<Line>) returns (result: seq<OutputInfo>)
    requires AreSaid(lines, says)
    ensures result == Gather(says, |says|).result
  {
    result := [];
    var current: Option<nat> := None;
    for n := 0 to |lines|
      invariant Gathered(result, current) == Gather(says, n)
    {
      result, current := ParseNextLine(lines, says, n, result, current);
    }
  }

  method ParseNextLine(lines: seq<string>, ghost says: seq<Line>, n: nat,
                       outputs: seq<OutputInfo>, index: Option<nat>)
    returns (result: seq<OutputInfo>, current: Option<nat>)
    requires AreSaid(lines, says) && n < |lines| && Gathered(outputs, index) == Gather(says, n)
    ensures Gathered(result, current) == Gather(says, n + 1)
  {
    assert IsSaid(lines, says, n);
    result, current := ParseOutputLine(outputs, index, Trim(lines[n]));
  }

  method PlaceOutput(outputs: seq<OutputInfo>, index: nat, geometry: Option<(i32, i32, u32, u32)>)
    returns (result: seq<OutputInfo>)
    requires index < |outputs|
    ensures result == outputs[index := Described(outputs[index], Geometry(geometry))]
  {
    result := outputs;
    if geometry.Some? {
      var (x, y, w, h) := geometry.value;
      result := outputs[index := outputs[index].(x := x, y := y, width := w, height := h)];
    }
  }

  /** The body of the loop of `parse_outputs`. */
  method ParseOutputLine(outputs: seq<OutputInfo>, index: Option<nat>, trimmed: string)
    returns (result: seq<OutputInfo>, current: Option<nat>)
    requires Gathered(outputs, index).Valid()
    ensures Gathered(result, current) == GatherLine(Gathered(outputs, index), Classify(trimmed))
  {
    result, current := outputs, index;
    if IsHeader(trimmed) {
      var parts := Words(trimmed[7..]);
      current := None;
      if |parts| >= 2 && IsConnectorId(parts[1]) {
        result := result + [OutputInfo(parts[1], false, 0, 0, 0, 0)];
        current := Some(|result| - 1);
      }
    } else if trimmed == "enabled" {
      if current.Some? {
        result := result[current.value := result[current.value].(enabled := true)];
      }
    } else if trimmed == "disabled" {
      if current.Some? {
        result := result[current.value := result[current.value].(enabled := false)];
      }
    } else if IsGeometry(trimmed) {
      if current.Some? {
        var geometry := ParseGeometry(Trim(trimmed[9..]));
        assert Classify(trimmed) == Geometry(geometry);
        result := PlaceOutput(result, current.value, geometry);
      }
    }
  }

  // ---------------------------------------------------------------------------
  // Active mode
  // ---------------------------------------------------------------------------

  /** What `active_mode_matches` knows about the connector it looks for. */
  datatype Probe = Probe(isTarget: bool, enabled: bool, mode: Option<ActiveMode>)

  function ProbeLine(p: Probe, connector: string, line: Line): Probe {
    if line.Header? then
      if line.name == Some(connector) then Probe(true, false, None) else p.(isTarget := false)
    else if !p.isTarget then p
    else
      match line
      case Enabled => p.(enabled := true)
      case Disabled => p.(enabled := false)
      case Modes(active) => p.(mode := active)
      case _ => p
  }

  function ProbeLines(lines: seq<Line>, connector: string, n: nat): Probe
    requires n <= |lines|
  {
    if n == 0 then Probe(false, false, None)
    else ProbeLine(ProbeLines(lines, connector, n - 1), connector, lines[n - 1])
  }

  /** What `active_mode_matches` answers. */
  predicate ActiveModeIs(text: string, connector: string, width: nat, height: nat, refresh: nat) {
    var lines := Classified(Lines(text));
    var probe := ProbeLines(lines, connector, |lines|);
    IsConnectorId(connector) && probe.enabled && ModeMatches(probe.mode, width, height, refresh)
  }

  method ActiveModeMatches(text: string, connector: string, width: nat, height: nat, refresh: nat)
    returns (matches: bool)
    ensures matches == ActiveModeIs(text, connector, width, height, refresh)
  {
    if !IsConnectorId(connector) {
      return false;
    }
    var lines := Lines(text);
    ghost var says := Classified(lines);
    var enabled, activeMode := ScanForActiveMode(lines, says, connector);
    matches := enabled && ModeMatches(activeMode, width, height, refresh);
  }

  /** The loop of `active_mode_matches`. */
  method ScanForActiveMode(lines: seq<string>, ghost says: seq<Line>, connector: string)
    returns (enabled: bool, activeMode: Option<ActiveMode>)
    requires AreSaid(lines, says)
    ensures var p := ProbeLines(says, connector, |says|); enabled == p.enabled && activeMode == p.mode
  {
    var currentIsTarget := false;
    enabled, activeMode := false, None;
    for n := 0 to |lines|
      invariant Probe(currentIsTarget, enabled, activeMode) == ProbeLines(says, connector, n)
    {
      currentIsTarget, enabled, activeMode :=
        ScanNextLine(lines, says, n, currentIsTarget, enabled, activeMode, connector);
    }
  }

  method ScanNextLine(lines: seq<string>, ghost says: seq<Line>, n: nat,
                      isTarget: bool, wasEnabled: bool, mode: Option<ActiveMode>, connector: string)
    returns (currentIsTarget: bool, enabled: bool, activeMode: Option<ActiveMode>)
    requires AreSaid(lines, says) && n < |lines|
    requires Probe(isTarget, wasEnabled, mode) == ProbeLines(says, connector, n)
    ensures Probe(currentIsTarget, enabled, activeMode) == ProbeLines(says, connector, n + 1)
  {
    assert IsSaid(lines, says, n);
    currentIsTarget, enabled, activeMode := ScanLine(isTarget, wasEnabled, mode, connector, Trim(lines[n]));
  }

  /** The body of the loop of `active_mode_matches`. */
  method ScanLine(isTarget: bool, wasEnabled: bool, mode: Option<ActiveMode>, connector: string, trimmed: string)
    returns (currentIsTarget: bool, enabled: bool, activeMode: Option<ActiveMode>)
    ensures Probe(currentIsTarget, enabled, activeMode)
            == ProbeLine(Probe(isTarget, wasEnabled, mode), connector, Classify(trimmed))
  {
    currentIsTarget, enabled, activeMode := isTarget, wasEnabled, mode;
    if IsHeader(trimmed) {
      var parts := Words(trimmed[7..]);
      currentIsTarget := |parts| > 1 && parts[1] == connector;
      if currentIsTarget {
        enabled, activeMode := false, None;
      }
    } else if currentIsTarget && trimmed == "enabled" {
      enabled := true;
    } else if currentIsTarget && trimmed == "disabled" {
      enabled := false;
    } else if currentIsTarget {
      ShapesExclude(trimmed);
      if IsModes(trimmed) {
        activeMode := FirstActive(Words(trimmed[6..]));
      }
    }
  }

  // ---------------------------------------------------------------------------
  // The two parsers agree
  // ---------------------------------------------------------------------------

  /** Where the last block of the connector among the first n lines is opened. */
  function LastOpening(lines: seq<Line>, connector: string, n: nat): (h: Option<nat>)
    requires n <= |lines|
    ensures h.Some? ==> h.value < n && lines[h.value] == Header(Some(connector))
    ensures forall k | (if h.Some? then h.value + 1 else 0) <= k < n :: lines[k] != Header(Some(connector))
  {
    if n == 0 then None
    else if lines[n - 1] == Header(Some(connector)) then Some(n - 1)
    else LastOpening(lines, connector, n - 1)
  }

  /** Where the block opened at h ends among the first n lines: at the next header, or at n. */
  function BlockEnd(lines: seq<Line>, h: nat, n: nat): (e: nat)
    requires h < n <= |lines|
    ensures h < e <= n && (forall k | h < k < e :: !lines[k].Header?) && (e < n ==> lines[e].Header?)
  {
    if n == h + 1 then n
    else
      var e := BlockEnd(lines, h, n - 1);
      if e == n - 1 && !lines[e].Header? then n else e
  }

  /** In the lines strictly between h and e, "enabled" is the last word on the matter. */
  ghost predicate SaysEnabled(lines: seq<Line>, h: nat, e: nat)
    requires e <= |lines|
  {
    exists i :: h < i < e && lines[i].Enabled? && forall k | i < k < e :: !lines[k].Disabled?
  }

  /** The last "Modes:" line strictly between h and e gives this mode, if there is such a line. */
  ghost predicate SaysMode(lines: seq<Line>, h: nat, e: nat, mode: Option<ActiveMode>)
    requires e <= |lines|
  {
    || ((forall k | h < k < e :: !lines[k].Modes?) && mode == None)
    || exists i :: h < i < e && lines[i] == Modes(mode) && forall k | i < k < e :: !lines[k].Modes?
  }

  /** The block structure a probe of the first n lines has to reflect. */
  ghost predicate ReflectsBlocks(lines: seq<Line>, connector: string, n: nat, p: Probe)
    requires n <= |lines|
  {
    var h := LastOpening(lines, connector, n);
    if h.None? then p == Probe(false, false, None)
    else
      var e := BlockEnd(lines, h.value, n);
      && (p.isTarget <==> e == n)
      && (p.enabled <==> SaysEnabled(lines, h.value, e))
      && SaysMode(lines, h.value, e, p.mode)
  }

  lemma EnabledStep(lines: seq<Line>, h: nat, e: nat)
    requires h < e < |lines|
    ensures SaysEnabled(lines, h, e + 1)
            <==> if lines[e].Enabled? then true else if lines[e].Disabled? then false else SaysEnabled(lines, h, e)
  {
  }

  lemma ModeStep(lines: seq<Line>, h: nat, e: nat, mode: Option<ActiveMode>)
    requires h < e < |lines| && SaysMode(lines, h, e, mode)
    ensures SaysMode(lines, h, e + 1, if lines[e].Modes? then lines[e].active else mode)
  {
    if !lines[e].Modes? && !(forall k | h < k < e :: !lines[k].Modes?) {
      var i :| h < i < e && lines[i] == Modes(mode) && forall k | i < k < e :: !lines[k].Modes?;
      assert lines[i] == Modes(mode) && forall k | i < k < e + 1 :: !lines[k].Modes?;
    }
  }

  /**
   * For every text: the scan for the active mode reports the last block that names the connector,
   * the last "enabled" or "disabled" line of that block and its last "Modes:" line.
   */
  lemma {:induction false} ProbeReflectsBlocks(lines: seq<Line>, connector: string, n: nat)
    requires n <= |lines|
    ensures ReflectsBlocks(lines, connector, n, ProbeLines(lines, connector, n))
  {
    if n == 0 {
      assert LastOpening(lines, connector, 0).None?;
    } else {
      var p, q := ProbeLines(lines, connector, n - 1), ProbeLines(lines, connector, n);
      ProbeReflectsBlocks(lines, connector, n - 1);
      ReflectionStep(lines, connector, n - 1, n, p, q);
    }
  }

  lemma ReflectionStep(lines: seq<Line>, connector: string, n: nat, next: nat, p: Probe, q: Probe)
    requires n < |lines| && next == n + 1 && q == ProbeLine(p, connector, lines[n])
    requires ReflectsBlocks(lines, connector, n, p)
    ensures ReflectsBlocks(lines, connector, next, q)
  {
    var h := LastOpening(lines, connector, n);
    if h.Some? && BlockEnd(lines, h.value, n) == n && !lines[n].Header? {
      EnabledStep(lines, h.value, n);
      ModeStep(lines, h.value, n, p.mode);
      assert BlockEnd(lines, h.value, n + 1) == n + 1;
    } else if lines[n] == Header(Some(connector)) {
      assert BlockEnd(lines, n, n + 1) == n + 1;
    } else if h.Some? {
      assert BlockEnd(lines, h.value, n + 1) == BlockEnd(lines, h.value, n);
    }
  }

  /** The enabled flag of the last entry with this name. */
  function LastEnabled(outputs: seq<OutputInfo>, name: string): bool {
    if outputs == [] then false
    else if outputs[|outputs| - 1].name == name then outputs[|outputs| - 1].enabled
    else LastEnabled(outputs[..|outputs| - 1], name)
  }

  lemma LastEnabledOfAppend(outputs: seq<OutputInfo>, o: OutputInfo, name: string)
    ensures LastEnabled(outputs + [o], name) == if o.name == name then o.enabled else LastEnabled(outputs, name)
  {
    assert (outputs + [o])[..|outputs|] == outputs;
  }

  /** Changing the last entry without renaming it. */
  lemma LastEnabledOfUpdate(outputs: seq<OutputInfo>, o: OutputInfo, name: string)
    requires outputs != [] && outputs[|outputs| - 1].name == o.name
    ensures LastEnabled(outputs[|outputs| - 1 := o], name)
            == if o.name == name then o.enabled else LastEnabled(outputs, name)
  {
    var front := outputs[..|outputs| - 1];
    assert outputs[|outputs| - 1 := o] == front + [o];
    LastEnabledOfAppend(front, o, name);
  }

  ghost predicate Agree(p: Probe, g: Gathered, connector: string)
    requires g.Valid()
  {
    && p.enabled == LastEnabled(g.result, connector)
    && (p.isTarget <==> g.current.Some? && g.result[g.current.value].name == connector)
  }

  lemma AgreementOnHeader(p: Probe, g: Gathered, connector: string, line: Line)
    requires IsConnectorId(connector) && g.Valid() && Agree(p, g, connector) && line.Header?
    ensures Agree(ProbeLine(p, connector, line), GatherLine(g, line), connector)
  {
    var g' := GatherLine(g, line);
    if g'.current.Some? {
      LastEnabledOfAppend(g.result, g'.result[|g.result|], connector);
    }
  }

  lemma AgreementInBlock(p: Probe, g: Gathered, connector: string, line: Line)
    requires g.Valid() && Agree(p, g, connector) && !line.Header?
    ensures Agree(ProbeLine(p, connector, line), GatherLine(g, line), connector)
  {
    if g.current.Some? {
      var o := g.result[g.current.value];
      LastEnabledOfUpdate(g.result, o, connector);
      LastEnabledOfUpdate(g.result, Described(o, line), connector);
      assert g.result[g.current.value := o] == g.result;
    }
  }

  /** For every text and every connector, the two parsers agree on whether it is enabled. */
  lemma {:induction false} ParsersAgree(lines: seq<Line>, connector: string, n: nat)
    requires IsConnectorId(connector) && n <= |lines|
    ensures Agree(ProbeLines(lines, connector, n), Gather(lines, n), connector)
  {
    if n > 0 {
      ParsersAgree(lines, connector, n - 1);
      if lines[n - 1].Header? {
        AgreementOnHeader(ProbeLines(lines, connector, n - 1), Gather(lines, n - 1), connector, lines[n - 1]);
      } else {
        AgreementInBlock(ProbeLines(lines, connector, n - 1), Gather(lines, n - 1), connector, lines[n - 1]);
      }
    }
  }

  /** A connector whose mode is verified is enabled in the layout parsed from the same text. */
  lemma VerifiedModeIsListedEnabled(text: string, connector: string, width: nat, height: nat, refresh: nat)
    requires ActiveModeIs(text, connector, width, height, refresh)
    ensures LastEnabled(OutputsOf(text), connector)
  {
    var lines := Classified(Lines(text));
    ParsersAgree(lines, connector, |lines|);
  }
}
