/** What it takes for the wait for the virtual output to be over (strategy/kwin/mod.rs). */
module Waiting {
  import opened Outcomes
  import opened Proto
  import opened Text
  import opened KScreen
  import opened Layout
  import opened Blocks
  import opened Listing
  import opened Telling

  predicate Contains(text: string, part: string) {
    part <= text || (text != "" && Contains(text[1..], part))
  }

  lemma {:induction false} ContainsPart(before: string, part: string, after: string)
    ensures Contains(before + part + after, part)
  {
    if before == "" {
      assert before + part + after == part + after;
    } else {
      ContainsPart(before[1..], part, after);
      assert (before + part + after)[1..] == before[1..] + part + after;
    }
  }

  /** What has no separator in it is found on one side of a separator or on the other. */
  lemma {:induction false} ContainsBesides(a: string, c: char, b: string, part: string)
    requires c !in part && part != ""
    ensures Contains(a + [c] + b, part) <==> Contains(a, part) || Contains(b, part)
  {
    var s := a + [c] + b;
    PrefixBesides(a, c, b, part);
    if a == "" {
      assert s[1..] == b;
    } else {
      ContainsBesides(a[1..], c, b, part);
      assert s[1..] == a[1..] + [c] + b;
    }
  }

  lemma PrefixBesides(a: string, c: char, b: string, part: string)
    requires c !in part
    ensures part <= a + [c] + b <==> part <= a
  {
    var s := a + [c] + b;
    assert s[|a|] == c;
    assert forall i | 0 <= i < |part| :: part[i] != c;
  }

  lemma LowerOfJoined(a: string, b: string)
    ensures Lower(a + b) == Lower(a) + Lower(b)
  {
  }

  lemma LowerKeepsNewlines(s: string)
    ensures '\n' in Lower(s) <==> '\n' in s
    ensures Lower("\n") == "\n"
  {
    if '\n' in s {
      var i :| 0 <= i < |s| && s[i] == '\n';
      assert Lower(s)[i] == '\n';
    }
    if '\n' in Lower(s) {
      var i :| 0 <= i < |s| && Lower(s)[i] == '\n';
      assert s[i] == '\n';
    }
  }

  /** Some line mentions it, in whatever case. */
  ghost predicate Mentioned(lines: seq<string>, part: string) {
    exists i :: 0 <= i < |lines| && Contains(Lower(lines[i]), Lower(part))
  }

  lemma {:induction false} MentionedInText(text: string, part: string)
    requires part != "" && '\n' !in part
    ensures Contains(Lower(text), Lower(part)) <==> Mentioned(Lines(text), part)
    decreases |text|
  {
    LowerKeepsNewlines(part);
    if text != "" {
      var i := IndexOf(text, '\n');
      if i == |text| {
        assert Lines(text) == [text] && Lines(text)[0] == text;
      } else {
        var a, b := text[..i], text[i + 1..];
        assert text == a + "\n" + b;
        LowerOfJoined(a + "\n", b);
        LowerOfJoined(a, "\n");
        ContainsBesides(Lower(a), '\n', Lower(b), Lower(part));
        MentionedInText(b, part);
        MentionedInFirst(a, Lines(b), part);
      }
    }
  }

  lemma MentionedInFirst(first: string, others: seq<string>, part: string)
    ensures Mentioned([first] + others, part) <==> Contains(Lower(first), Lower(part)) || Mentioned(others, part)
  {
    var all := [first] + others;
    if Contains(Lower(first), Lower(part)) {
      assert all[0] == first;
    }
    if Mentioned(others, part) {
      var i :| 0 <= i < |others| && Contains(Lower(others[i]), Lower(part));
      assert all[i + 1] == others[i];
    }
  }

  lemma MentionedInJoined(a: seq<string>, b: seq<string>, part: string)
    ensures Mentioned(a + b, part) <==> Mentioned(a, part) || Mentioned(b, part)
  {
    if Mentioned(a, part) {
      var i :| 0 <= i < |a| && Contains(Lower(a[i]), Lower(part));
      assert (a + b)[i] == a[i];
    }
    if Mentioned(b, part) {
      var i :| 0 <= i < |b| && Contains(Lower(b[i]), Lower(part));
      assert (a + b)[|a| + i] == b[i];
    }
  }

  lemma {:induction false} MentionedInBlocks(preface: seq<string>, entries: seq<Entry>, port: string)
    ensures Mentioned(AllLines(preface, entries), port)
            <==> Mentioned(preface, port) || exists e :: e in entries && Mentioned(e.lines, port)
  {
    if entries != [] {
      var front, last := entries[..|entries| - 1], entries[|entries| - 1];
      MentionedInBlocks(preface, front, port);
      MentionedInJoined(AllLines(preface, front), last.lines, port);
      assert forall e :: e in entries <==> e in front || e == last;
    }
  }

  // ---------------------------------------------------------------------------
  // A header mentions its name
  // ---------------------------------------------------------------------------

  lemma {:induction false} ContainsLater(s: string, k: nat, part: string)
    requires k <= |s| && Contains(s[k..], part)
    ensures Contains(s, part)
  {
    if k == 0 {
      assert s[0..] == s;
    } else {
      assert s[1..][k - 1..] == s[k..];
      ContainsLater(s[1..], k - 1, part);
    }
  }

  lemma {:induction false} ContainsEarlier(s: string, k: nat, part: string)
    requires k <= |s| && Contains(s[..k], part)
    ensures Contains(s, part)
  {
    if !(part <= s[..k]) {
      assert s[..k][1..] == s[1..][..k - 1];
      ContainsEarlier(s[1..], k - 1, part);
    }
  }

  lemma {:induction false} WordIsContained(s: string, w: string)
    requires w in Words(s)
    ensures Contains(s, w)
    decreases |s|
  {
    if IsSpace(s[0]) {
      WordIsContained(s[1..], w);
    } else {
      var k := WordLength(s);
      if w != s[..k] {
        WordIsContained(s[k..], w);
        ContainsLater(s, k, w);
      }
    }
  }

  lemma {:induction false} TrimStartIsInside(s: string, part: string)
    requires Contains(TrimStart(s), part)
    ensures Contains(s, part)
  {
    if s != "" && IsSpace(s[0]) {
      TrimStartIsInside(s[1..], part);
      ContainsLater(s, 1, part);
    }
  }

  lemma {:induction false} TrimEndIsInside(s: string, part: string)
    requires Contains(TrimEnd(s), part)
    ensures Contains(s, part)
  {
    if s != "" && IsSpace(s[|s| - 1]) {
      TrimEndIsInside(s[..|s| - 1], part);
      ContainsEarlier(s, |s| - 1, part);
    }
  }

  lemma {:induction false} ContainsInAnyCase(s: string, part: string)
    requires Contains(s, part)
    ensures Contains(Lower(s), Lower(part))
  {
    if part <= s {
      assert Lower(part) <= Lower(s);
    } else {
      ContainsInAnyCase(s[1..], part);
      assert Lower(s)[1..] == Lower(s[1..]);
    }
  }

  lemma HeaderMentions(line: string, name: string)
    requires Classify(Trim(line)) == Header(Some(name))
    ensures Contains(line, name)
  {
    var t := Trim(line);
    assert HeaderName(t) == Some(name);
    WordIsContained(t[7..], name);
    ContainsLater(t, 7, name);
    TrimEndIsInside(TrimStart(line), name);
    TrimStartIsInside(line, name);
  }

  /** The block of an output mentions every part of its name. */
  lemma BlockMentions(e: Entry, left: string, part: string, right: string)
    requires e.Valid() && e.Entry? && e.info.name == left + part + right
    ensures Mentioned(e.lines, part)
  {
    var line := e.lines[0];
    assert Classified(e.lines)[0] == Classify(Trim(line));
    HeaderMentions(line, e.info.name);
    ContainsInAnyCase(line, e.info.name);
    LowerOfJoined(left + part, right);
    LowerOfJoined(left, part);
    ContainsPart(Lower(left), Lower(part), Lower(right));
    ContainsThrough(Lower(line), Lower(e.info.name), Lower(part));
    assert Contains(Lower(e.lines[0]), Lower(part));
  }

  lemma {:induction false} ContainsThrough(s: string, middle: string, part: string)
    requires Contains(s, middle) && Contains(middle, part)
    ensures Contains(s, part)
  {
    if middle <= s {
      assert s[..|middle|] == middle;
      ContainsEarlier(s, |middle|, part);
    } else {
      ContainsThrough(s[1..], middle, part);
    }
  }

  // ---------------------------------------------------------------------------
  // What the wait waits for
  // ---------------------------------------------------------------------------

  ghost predicate Listed(entries: seq<Entry>, port: string) { exists e :: e in entries && e.Names(port) }

  /** The block of something else mentions the name, or a line before all blocks does. */
  ghost predicate MentionedElsewhere(preface: seq<string>, entries: seq<Entry>, port: string) {
    Mentioned(preface, port) || exists e :: e in entries && !e.Names(port) && Mentioned(e.lines, port)
  }

  lemma MentionedByOneOf(entries: seq<Entry>, port: string)
    requires AllValid(entries)
    ensures (exists e :: e in entries && Mentioned(e.lines, port))
            <==> Listed(entries, port) || exists e :: e in entries && !e.Names(port) && Mentioned(e.lines, port)
  {
    if e :| e in entries && e.Names(port) {
      assert e.info.name == "" + port + "";
      BlockMentions(e, "", port, "");
    }
  }

  /**
   * What the wait waits for, exactly: the name is found in a text, in any case, if and only if its output is
   * listed in it or something else mentions it.
   */
  lemma AwaitedIff(preface: seq<string>, entries: seq<Entry>, text: string, port: string)
    requires AreBlocks(Lines(text), preface, entries) && IsConnectorId(port)
    ensures Contains(Lower(text), Lower(port)) <==> Listed(entries, port) || MentionedElsewhere(preface, entries, port)
  {
    ConnectorIdIsWord(port);
    MentionedInText(text, port);
    MentionedInBlocks(preface, entries, port);
    MentionedByOneOf(entries, port);
  }

  /** The text is a listing of the screen in which the output is listed or something else mentions it. */
  ghost predicate Mentions(text: string, s: Screen, port: string) {
    exists preface, entries ::
      && AreBlocks(Lines(text), preface, entries) && ListsScreen(entries, s)
      && (port in s || MentionedElsewhere(preface, entries, port))
  }

  lemma ListedIff(entries: seq<Entry>, s: Screen, port: string)
    requires ListsScreen(entries, s)
    ensures Listed(entries, port) <==> port in s
  {
    if e :| e in entries && e.Names(port) {
      EntryIsInfo(entries, e);
      InfoIsAsShown(Infos(entries), s, e.info);
    }
    if port in s {
      var i :| 0 <= i < |Infos(entries)| && Infos(entries)[i].name == port;
      InfoIsEntry(entries, Infos(entries)[i]);
      var e :| e in entries && e.Entry? && e.info == Infos(entries)[i];
      assert e.Names(port);
    }
  }

  /** The name turns up in a listing of the screen exactly if its output is there or something else mentions it. */
  lemma TurnsUpIff(text: string, s: Screen, port: string)
    requires IsListing(text, s) && IsConnectorId(port)
    ensures Contains(Lower(text), Lower(port)) <==> Mentions(text, s, port)
  {
    forall preface, entries | AreBlocks(Lines(text), preface, entries) && ListsScreen(entries, s)
      ensures Contains(Lower(text), Lower(port)) <==> port in s || MentionedElsewhere(preface, entries, port)
    {
      AwaitedIff(preface, entries, text, port);
      ListedIff(entries, s, port);
    }
  }

  /** So the wait for an output is over at once when the name of another contains its name. */
  lemma AnotherNameIsEnough(preface: seq<string>, entries: seq<Entry>, e: Entry,
                            left: string, port: string, right: string)
    requires e in entries && e.Valid() && e.Entry? && e.info.name == left + port + right && left + right != ""
    ensures MentionedElsewhere(preface, entries, port)
  {
    BlockMentions(e, left, port, right);
    assert |e.info.name| > |port|;
  }
}
