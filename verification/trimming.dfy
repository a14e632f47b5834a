/** Trimming a text as a whole changes nothing of what the parsers read (strategy/kwin/kscreen.rs). */
module Trimming {
  import opened Outcomes
  import opened Text
  import opened KScreen
  import opened Blocks

  // ---------------------------------------------------------------------------
  // Trimming a line
  // ---------------------------------------------------------------------------

  lemma {:induction false} TrimOfTrailed(s: string, c: char)
    requires IsSpace(c)
    ensures Trim(s + [c]) == Trim(s)
  {
    var t := s + [c];
    if s == "" {
      assert t[1..] == "" && TrimStart(t) == "";
    } else if IsSpace(s[0]) {
      assert t[1..] == s[1..] + [c];
      TrimOfTrailed(s[1..], c);
    } else {
      assert t[..|t| - 1] == s;
    }
  }

  lemma BlankIsOther()
    ensures Classify(Trim("")) == Other
  {
    assert Trim("") == "";
  }

  // ---------------------------------------------------------------------------
  // Trimming the lines of a text
  // ---------------------------------------------------------------------------

  /** What the lines of the text say. */
  function Says(text: string): seq<Line> { Classified(Lines(text)) }

  lemma LinesOfOne(s: string)
    requires '\n' !in s && s != ""
    ensures Lines(s) == [s]
  {
    IndexOfAbsent(s, '\n');
  }

  lemma SaysOne(s: string)
    requires '\n' !in s
    ensures Says(s) == if s == "" then [] else [Classify(Trim(s))]
  {
    if s != "" {
      LinesOfOne(s);
    }
  }

  lemma SaysFirst(s: string, a: string, b: string)
    requires s == a + "\n" + b && '\n' !in a
    ensures Says(s) == [Classify(Trim(a))] + Says(b)
  {
    LinesOfFirst(a, b);
    ClassifiedSplits([a], Lines(b));
  }

  lemma SplitAtNewline(s: string) returns (a: string, b: string)
    requires '\n' in s
    ensures s == a + "\n" + b && '\n' !in a && |b| < |s|
  {
    var i := IndexOf(s, '\n');
    assert s[..|s|] == s;
    a, b := s[..i], s[i + 1..];
  }

  lemma TrimOfLed(c: char, s: string)
    requires IsSpace(c)
    ensures Trim([c] + s) == Trim(s)
  {
    assert ([c] + s)[1..] == s;
  }

  lemma LeadingBlankInFirst(t: string, c: char, s: string)
    requires t == [c] + s && IsSpace(c) && c != '\n' && '\n' in s
    ensures Says(t) == Says(s)
  {
    var a, b := SplitAtNewline(s);
    var first := [c] + a;
    assert t == first + "\n" + b;
    SaysFirst(s, a, b);
    SaysFirst(t, first, b);
    TrimOfLed(c, a);
  }

  /** The text, less its leading blank, says the same, less perhaps a blank line before the rest. */
  lemma LeadingBlank(t: string, c: char, s: string)
    requires t == [c] + s && IsSpace(c)
    ensures Says(t) == Says(s) || Says(t) == [Other] + Says(s)
  {
    if c == '\n' {
      BlankIsOther();
      SaysFirst(t, "", s);
    } else if '\n' in s {
      LeadingBlankInFirst(t, c, s);
    } else {
      BlankIsOther();
      SaysOne(s);
      SaysOne(t);
      TrimOfLed(c, s);
    }
  }

  lemma BlankBehind(first: Line, x: seq<Line>, y: seq<Line>, s: seq<Line>, t: seq<Line>)
    requires (y == x || y == x + [Other]) && s == [first] + x && t == [first] + y
    ensures t == s || t == s + [Other]
  {
    assert [first] + (x + [Other]) == ([first] + x) + [Other];
  }

  /** The text, less its trailing blank, says the same, less perhaps a blank line after the rest. */
  lemma {:induction false} TrailingBlank(t: string, s: string, c: char)
    requires t == s + [c] && IsSpace(c)
    ensures Says(t) == Says(s) || Says(t) == Says(s) + [Other]
    decreases |s|
  {
    if '\n' in s {
      var a, b := SplitAtNewline(s);
      var rest := b + [c];
      TrailingBlank(rest, b, c);
      SaysFirst(s, a, b);
      SaysFirst(t, a, rest);
      BlankBehind(Classify(Trim(a)), Says(b), Says(rest), Says(s), Says(t));
    } else if c == '\n' {
      BlankIsOther();
      SaysOne(s);
      SaysFirst(t, s, "");
    } else {
      BlankIsOther();
      SaysOne(s);
      SaysOne(t);
      TrimOfTrailed(s, c);
    }
  }

  // ---------------------------------------------------------------------------
  // Trimming a text
  // ---------------------------------------------------------------------------

  /** Both parsers read the same. */
  ghost predicate ReadAlike(a: seq<Line>, b: seq<Line>) {
    && Gather(a, |a|).result == Gather(b, |b|).result
    && forall connector ::
         var p, q := ProbeLines(a, connector, |a|), ProbeLines(b, connector, |b|);
         p.enabled == q.enabled && p.mode == q.mode
  }

  lemma OtherBefore(s: seq<Line>)
    ensures ReadAlike([Other] + s, s)
  {
    assert [] + s == s;
    GatherAll([Other], s);
    GatherAll([], s);
    assert Gather([Other], 1) == Gather([], 0);
    forall connector
      ensures ProbeLines([Other] + s, connector, |[Other] + s|) == ProbeLines(s, connector, |s|)
    {
      ProbeAll(connector, [Other], s);
      ProbeAll(connector, [], s);
      assert ProbeLines([Other], connector, 1) == ProbeLines([], connector, 0);
    }
  }

  lemma OtherAfter(s: seq<Line>)
    ensures ReadAlike(s + [Other], s)
  {
    GatherAll(s, [Other]);
    var g := Gather(s, |s|);
    assert GatherFrom(g, [Other], 0) == g;
    if g.current.Some? {
      assert g.result[g.current.value := g.result[g.current.value]] == g.result;
    }
    forall connector
      ensures ProbeLines(s + [Other], connector, |s + [Other]|) == ProbeLines(s, connector, |s|)
    {
      ProbeAll(connector, s, [Other]);
      assert ProbeFrom(ProbeLines(s, connector, |s|), connector, [Other], 0) == ProbeLines(s, connector, |s|);
    }
  }

  lemma ReadAlikeTo(a: seq<Line>, b: seq<Line>, c: seq<Line>)
    requires ReadAlike(a, b) && (c == b || c == [Other] + b || c == b + [Other])
    ensures ReadAlike(a, c)
  {
    OtherBefore(b);
    OtherAfter(b);
  }

  lemma {:induction false} TrimStartReadsAlike(s: string)
    ensures ReadAlike(Says(TrimStart(s)), Says(s))
  {
    if s != "" && IsSpace(s[0]) {
      TrimStartReadsAlike(s[1..]);
      LeadingBlank(s, s[0], s[1..]);
      ReadAlikeTo(Says(TrimStart(s)), Says(s[1..]), Says(s));
    }
  }

  lemma TrimEndStep(trimmed: string, front: string, s: string)
    requires s != "" && front == s[..|s| - 1] && IsSpace(s[|s| - 1])
    requires ReadAlike(Says(trimmed), Says(front))
    ensures ReadAlike(Says(trimmed), Says(s))
  {
    TrailingBlank(s, front, s[|s| - 1]);
    ReadAlikeTo(Says(trimmed), Says(front), Says(s));
  }

  lemma {:induction false} TrimEndReadsAlike(s: string)
    ensures ReadAlike(Says(TrimEnd(s)), Says(s))
  {
    if s != "" && IsSpace(s[|s| - 1]) {
      var front := s[..|s| - 1];
      TrimEndReadsAlike(front);
      TrimEndStep(TrimEnd(s), front, s);
    }
  }

  /** The text as it is trimmed before it is parsed is read like the text that was printed. */
  lemma TrimReadsAlike(text: string)
    ensures ReadAlike(Says(Trim(text)), Says(text))
    ensures OutputsOf(Trim(text)) == OutputsOf(text)
    ensures forall connector, width, height, refresh ::
              ActiveModeIs(Trim(text), connector, width, height, refresh)
              <==> ActiveModeIs(text, connector, width, height, refresh)
  {
    TrimStartReadsAlike(text);
    TrimEndReadsAlike(TrimStart(text));
  }
}
