/** What the text of a listing tells about KWin's outputs. */
module Telling {
  import opened Outcomes
  import opened Proto
  import opened Text
  import opened KScreen
  import opened Layout
  import opened World
  import opened Blocks
  import opened Trimming
  import opened Listing
  import Ansi

  /** The current mode of an output as a listing gives it. */
  function ListedModeOf(o: Output): Option<ActiveMode> {
    match o.mode
    case Some(m) => Some(ActiveMode(m.width, m.height, m.rate))
    case None => None
  }

  /** The mode this connector shows, if its output is on. */
  function ShownMode(s: Screen, connector: string): Option<ActiveMode> {
    if connector in s && s[connector].enabled then ListedModeOf(s[connector]) else None
  }

  /** The output is on and its current mode is this one, within the tolerance on the rate. */
  ghost predicate ShowsMode(s: Screen, connector: string, m: Mode) {
    match ShownMode(s, connector)
    case None => false
    case Some(shown) =>
      && shown.width == m.width && shown.height == m.height
      && shown.rate.Finite? && RateMatches(shown.rate.hz, m.refresh)
  }

  /** The snapshot taken from the text is the screen, and a mode is verified on the text just if it is shown. */
  ghost predicate Tells(text: string, s: Screen) {
    && IsSnapshot(OutputsOf(text), s)
    && forall connector, width, height, refresh ::
         ActiveModeIs(text, connector, width, height, refresh)
         <==> ShowsMode(s, connector, Mode(width, height, refresh))
  }

  /**
   * The entries tell of every output of the screen once, and of no other: its state, its geometry and, if it is
   * on, its current mode.  How and in what order they do is their own affair.
   */
  ghost predicate ListsScreen(entries: seq<Entry>, s: Screen) {
    && AllValid(entries) && IsSnapshot(Infos(entries), s)
    && forall e | e in entries && e.Entry? && e.info.enabled && e.info.name in s ::
         e.mode == ListedModeOf(s[e.info.name])
  }

  /** The text is a listing of the screen. */
  ghost predicate IsListing(text: string, s: Screen) {
    exists preface, entries :: AreBlocks(Lines(text), preface, entries) && ListsScreen(entries, s)
  }

  lemma {:induction false} EntryIsInfo(entries: seq<Entry>, e: Entry)
    requires e in entries && e.Entry?
    ensures e.info in Infos(entries)
  {
    var front, last := entries[..|entries| - 1], entries[|entries| - 1];
    if e == last {
      assert e.info in last.Infos();
    } else {
      EntryIsInfo(front, e);
    }
  }

  lemma {:induction false} InfoIsEntry(entries: seq<Entry>, o: OutputInfo)
    requires o in Infos(entries)
    ensures exists e :: e in entries && e.Entry? && e.info == o
  {
    var front, last := entries[..|entries| - 1], entries[|entries| - 1];
    if o in Infos(front) {
      InfoIsEntry(front, o);
    } else {
      assert o in last.Infos() && last in entries;
    }
  }

  /** What is found is what the last entry of that name tells, if there is one. */
  lemma {:induction false} FoundIsLast(entries: seq<Entry>, connector: string)
    ensures || ((forall e | e in entries :: !e.Names(connector)) && Found(entries, connector) == (false, None))
            || exists e :: e in entries && e.Names(connector) && Found(entries, connector) == (e.info.enabled, e.mode)
  {
    if entries != [] {
      var front, last := entries[..|entries| - 1], entries[|entries| - 1];
      if last.Names(connector) {
        assert last in entries;
      } else {
        FoundIsLast(front, connector);
        assert forall e :: e in entries <==> e in front || e == last;
      }
    }
  }

  /** An output that is in a snapshot is in it as it is. */
  lemma InfoIsAsShown(infos: seq<OutputInfo>, s: Screen, o: OutputInfo)
    requires IsSnapshot(infos, s) && o in infos
    ensures o.name in s && o.enabled == s[o.name].enabled
  {
  }

  lemma FoundOnScreen(entries: seq<Entry>, s: Screen, connector: string)
    requires ListsScreen(entries, s)
    ensures var (enabled, mode) := Found(entries, connector);
            && (enabled <==> connector in s && s[connector].enabled)
            && (enabled ==> mode == ListedModeOf(s[connector]))
  {
    FoundIsLast(entries, connector);
    if e :| e in entries && e.Names(connector) && Found(entries, connector) == (e.info.enabled, e.mode) {
      EntryIsInfo(entries, e);
      InfoIsAsShown(Infos(entries), s, e.info);
    } else if connector in s {
      var i :| 0 <= i < |Infos(entries)| && Infos(entries)[i].name == connector;
      InfoIsEntry(entries, Infos(entries)[i]);
    }
  }

  lemma SnapshotNamesConnectors(entries: seq<Entry>, s: Screen, connector: string)
    requires ListsScreen(entries, s) && connector in s
    ensures IsConnectorId(connector)
  {
    var i :| 0 <= i < |Infos(entries)| && Infos(entries)[i].name == connector;
    InfoIsEntry(entries, Infos(entries)[i]);
  }

  lemma ModeIsTold(preface: seq<string>, entries: seq<Entry>, s: Screen, text: string,
                   connector: string, width: nat, height: nat, refresh: nat)
    requires ListsScreen(entries, s) && AreBlocks(Lines(text), preface, entries)
    ensures ActiveModeIs(text, connector, width, height, refresh)
            <==> ShowsMode(s, connector, Mode(width, height, refresh))
  {
    if IsConnectorId(connector) {
      BlocksAreRead(preface, entries, text, connector, width, height, refresh);
      FoundOnScreen(entries, s, connector);
    } else if connector in s {
      SnapshotNamesConnectors(entries, s, connector);
    }
  }

  /** Any listing of the screen tells what is on the screen. */
  lemma ListingTells(text: string, s: Screen)
    requires IsListing(text, s)
    ensures Tells(text, s)
  {
    var preface, entries :| AreBlocks(Lines(text), preface, entries) && ListsScreen(entries, s);
    EntriesAreGathered(preface, entries);
    forall connector, width, height, refresh
      ensures ActiveModeIs(text, connector, width, height, refresh)
              <==> ShowsMode(s, connector, Mode(width, height, refresh))
    {
      ModeIsTold(preface, entries, s, text, connector, width, height, refresh);
    }
  }

  // ---------------------------------------------------------------------------
  // Trimming and colours
  // ---------------------------------------------------------------------------

  /** Of outputs that are all different, what is found of one is what its entry tells. */
  lemma {:induction false} FoundIsOnly(entries: seq<Entry>, e: Entry)
    requires e in entries && e.Entry?
    requires forall i, j | 0 <= i < j < |Infos(entries)| :: Infos(entries)[i].name != Infos(entries)[j].name
    ensures Found(entries, e.info.name) == (e.info.enabled, e.mode)
  {
    var front, last := entries[..|entries| - 1], entries[|entries| - 1];
    if e != last {
      assert e in front by {
        var i :| 0 <= i < |entries| && entries[i] == e;
        assert front[i] == e;
      }
      assert Infos(entries) == Infos(front) + last.Infos();
      FoundIsOnlyInFront(front, last, e);
      FoundIsOnly(front, e);
    }
  }

  lemma FoundIsOnlyInFront(front: seq<Entry>, last: Entry, e: Entry)
    requires e in front && e.Entry?
    requires var infos := Infos(front) + last.Infos();
             forall i, j | 0 <= i < j < |infos| :: infos[i].name != infos[j].name
    ensures !last.Names(e.info.name)
    ensures forall i, j | 0 <= i < j < |Infos(front)| :: Infos(front)[i].name != Infos(front)[j].name
  {
    var infos := Infos(front) + last.Infos();
    EntryIsInfo(front, e);
    var i :| 0 <= i < |Infos(front)| && Infos(front)[i] == e.info;
    assert infos[i] == e.info;
    assert |infos| > |Infos(front)| ==> infos[i].name != infos[|Infos(front)|].name;
    forall i, j | 0 <= i < j < |Infos(front)|
      ensures Infos(front)[i].name != Infos(front)[j].name
    {
      assert infos[i].name != infos[j].name;
    }
  }

  lemma FoundAlike(a: string, b: string, preface: seq<string>, entries: seq<Entry>,
                   preface': seq<string>, entries': seq<Entry>, connector: string)
    requires ReadAlike(Says(a), Says(b)) && IsConnectorId(connector)
    requires AreBlocks(Lines(a), preface, entries) && AreBlocks(Lines(b), preface', entries')
    ensures Found(entries, connector) == Found(entries', connector)
  {
    EntriesAreProbed(preface, entries, connector);
    EntriesAreProbed(preface', entries', connector);
  }

  /** A text that is read like a listing is one. */
  lemma ReadLikeListing(a: string, b: string, s: Screen)
    requires IsListing(a, s) && ReadAlike(Says(b), Says(a))
    ensures IsListing(b, s)
  {
    var preface, entries :| AreBlocks(Lines(a), preface, entries) && ListsScreen(entries, s);
    var preface', entries' := EveryTextIsBlocks(Lines(b));
    EntriesAreGathered(preface, entries);
    EntriesAreGathered(preface', entries');
    assert Infos(entries') == Infos(entries);
    forall e | e in entries' && e.Entry? && e.info.enabled && e.info.name in s
      ensures e.mode == ListedModeOf(s[e.info.name])
    {
      FoundIsOnly(entries', e);
      assert e.Valid();
      FoundAlike(b, a, preface', entries', preface, entries, e.info.name);
      FoundOnScreen(entries, s, e.info.name);
    }
    assert ListsScreen(entries', s);
  }

  /** What the daemon reads of a listing, without the control sequences that colour it and trimmed, is one. */
  lemma ColouredListingTells(pieces: seq<Ansi.Piece>, s: Screen)
    requires forall i | 0 <= i < |pieces| :: pieces[i].Valid()
    requires IsListing(Ansi.Shown(pieces), s)
    ensures var text := Trim(Ansi.Strip(Ansi.Raw(pieces))); IsListing(text, s) && Tells(text, s)
  {
    var printed := Ansi.Shown(pieces);
    Ansi.ControlsAreErased(pieces);
    TrimReadsAlike(printed);
    ReadLikeListing(printed, Trim(printed), s);
    ListingTells(Trim(printed), s);
  }

  // ---------------------------------------------------------------------------
  // A listing of a given screen
  // ---------------------------------------------------------------------------

  /** Each of these names once, and they are those of the outputs. */
  ghost predicate AreNames(names: seq<string>, s: Screen) {
    && (forall i, j | 0 <= i < j < |names| :: names[i] != names[j])
    && forall n :: n in names <==> n in s
  }

  function Sheets(names: seq<string>, s: Screen): (sheets: seq<Sheet>)
    requires forall n | n in names :: n in s
    ensures |sheets| == |names| && forall i | 0 <= i < |names| :: sheets[i] == Describe(names[i], s[names[i]])
  {
    seq(|names|, i requires 0 <= i < |names| => Describe(names[i], s[names[i]]))
  }

  lemma DescribedMode(name: string, o: Output)
    requires Describe(name, o).Valid() && RatePrinted(o)
    ensures Describe(name, o).CurrentMode() == ListedModeOf(o)
  {
  }

  lemma InfosOfNames(infos: seq<OutputInfo>, names: seq<string>, s: Screen)
    requires AreNames(names, s) && |infos| == |names|
    requires forall i | 0 <= i < |names| :: names[i] in s && infos[i] == Describe(names[i], s[names[i]]).info
    ensures IsSnapshot(infos, s)
  {
    forall n | n in s
      ensures exists i :: 0 <= i < |infos| && infos[i].name == n
    {
      var i :| 0 <= i < |names| && names[i] == n;
      assert infos[i].name == n;
    }
  }

  lemma SheetsAreValid(names: seq<string>, s: Screen)
    requires Listable(s) && forall n | n in names :: n in s
    ensures AllSheets(Sheets(names, s))
  {
    forall i | 0 <= i < |names|
      ensures Sheets(names, s)[i].Valid()
    {
      assert names[i] in s && Describe(names[i], s[names[i]]).Valid();
    }
  }

  lemma SheetsAreSnapshot(names: seq<string>, s: Screen)
    requires Listable(s) && AreNames(names, s)
    ensures AllSheets(Sheets(names, s)) && IsSnapshot(Infos(Entries(Sheets(names, s))), s)
  {
    var sheets := Sheets(names, s);
    SheetsAreValid(names, s);
    InfosOfSheets(sheets);
    InfosOfNames(Infos(Entries(sheets)), names, s);
  }

  lemma SheetModes(names: seq<string>, s: Screen, e: Entry)
    requires Listable(s) && (forall n | n in names :: n in s) && AllSheets(Sheets(names, s))
    requires e in Entries(Sheets(names, s))
    ensures e.Entry? && e.info.name in s && e.mode == ListedModeOf(s[e.info.name])
  {
    var sheets := Sheets(names, s);
    var i :| 0 <= i < |sheets| && Entries(sheets)[i] == e;
    assert names[i] in s && Describe(names[i], s[names[i]]).Valid();
    DescribedMode(names[i], s[names[i]]);
  }

  lemma SheetsListScreen(names: seq<string>, s: Screen)
    requires Listable(s) && AreNames(names, s)
    ensures AllSheets(Sheets(names, s)) && IsListing(Print(Sheets(names, s)), s)
  {
    var sheets := Sheets(names, s);
    SheetsAreSnapshot(names, s);
    PrintIsBlocks(sheets);
    forall e | e in Entries(sheets)
      ensures e.Entry? && e.info.name in s && e.mode == ListedModeOf(s[e.info.name])
    {
      SheetModes(names, s, e);
    }
    assert ListsScreen(Entries(sheets), s);
  }

  /** A listing of the screen, one of those kscreen-doctor might print, as the daemon trims it. */
  method PrintScreen(s: Screen) returns (text: string)
    requires Listable(s)
    ensures IsListing(text, s)
  {
    var names: seq<string>, rest := [], s.Keys;
    while rest != {}
      invariant rest <= s.Keys && forall n :: n in names <==> n in s && n !in rest
      invariant forall i, j | 0 <= i < j < |names| :: names[i] != names[j]
    {
      var n :| n in rest;
      names := names + [n];
      rest := rest - {n};
    }
    SheetsListScreen(names, s);
    var printed := Print(Sheets(names, s));
    TrimReadsAlike(printed);
    ReadLikeListing(printed, Trim(printed), s);
    text := Trim(printed);
  }
}
