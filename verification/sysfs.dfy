/** Choosing a card and a connector (sysfs.rs, and the card selection of mod.rs). */
module Sysfs {
  import opened Outcomes
  import opened Text

  /** An entry of /sys/class/drm: its name, and what its status file holds if it can be read. */
  datatype Entry = Entry(name: string, status: Option<string>)

  predicate HasStatus(e: Entry, status: string) { e.status.Some? && Trim(e.status.value) == status }

  predicate IsIdle(e: Entry) { HasStatus(e, "disconnected") || HasStatus(e, "off") }

  predicate IsUsable(connector: string) { "DP-" <= connector || "HDMI-" <= connector }

  /** A connector of the card that could carry the virtual display. */
  ghost predicate Eligible(entries: seq<Entry>, card: string, connector: string) {
    IsUsable(connector) && exists e :: e in entries && e.name == card + "-" + connector && IsIdle(e)
  }

  /** No idle connector, whatever its card is taken to be, is among these outputs. */
  predicate NoneIsOn<T>(entries: seq<Entry>, outputs: map<string, T>) {
    forall e | e in entries && IsIdle(e) ::
      forall i | 0 <= i < |e.name| && e.name[i] == '-' && IsUsable(e.name[i + 1..]) :: e.name[i + 1..] !in outputs
  }

  lemma EligibleIsNotOn<T>(entries: seq<Entry>, outputs: map<string, T>, card: string, connector: string)
    requires NoneIsOn(entries, outputs) && Eligible(entries, card, connector)
    ensures connector !in outputs
  {
    var e :| e in entries && e.name == card + "-" + connector && IsIdle(e);
    assert e.name[|card|] == '-' && e.name[|card| + 1..] == connector;
  }

  /** The words that make a connector eligible, and the kinds of connector. */
  lemma EligibleIff(name: string, status: Option<string>, card: string, connector: string)
    ensures Eligible([Entry(name, status)], card, connector)
            <==> && name == card + "-" + connector && ("DP-" <= connector || "HDMI-" <= connector)
                 && status.Some? && Trim(status.value) in {"disconnected", "off"}
  {
    assert Entry(name, status) in [Entry(name, status)];
  }

  /** With more entries there are at least the same connectors, and no others than those of the entries. */
  lemma EligibleInJoined(a: seq<Entry>, b: seq<Entry>, card: string, connector: string)
    ensures Eligible(a + b, card, connector) <==> Eligible(a, card, connector) || Eligible(b, card, connector)
  {
    if Eligible(a, card, connector) {
      var e :| e in a && e.name == card + "-" + connector && IsIdle(e);
      assert e in a + b;
    }
    if Eligible(b, card, connector) {
      var e :| e in b && e.name == card + "-" + connector && IsIdle(e);
      assert e in a + b;
    }
    if Eligible(a + b, card, connector) {
      var e :| e in a + b && e.name == card + "-" + connector && IsIdle(e);
      assert e in a || e in b;
    }
  }

  // Byte order of strings.

  predicate LexLe(a: string, b: string) {
    || a == ""
    || (b != "" && (a[0] < b[0] || (a[0] == b[0] && LexLe(a[1..], b[1..]))))
  }

  lemma {:induction false} LexLeIsTotal(a: string, b: string)
    ensures LexLe(a, b) || LexLe(b, a)
  {
    if a != "" && b != "" && a[0] == b[0] {
      LexLeIsTotal(a[1..], b[1..]);
    }
  }

  lemma {:induction false} LexLeIsAntisymmetric(a: string, b: string)
    requires LexLe(a, b) && LexLe(b, a)
    ensures a == b
  {
    if a != "" && b != "" {
      LexLeIsAntisymmetric(a[1..], b[1..]);
      assert a == [a[0]] + a[1..] && b == [b[0]] + b[1..];
    }
  }

  lemma {:induction false} LexLeIsTransitive(a: string, b: string, c: string)
    requires LexLe(a, b) && LexLe(b, c)
    ensures LexLe(a, c)
  {
    if a != "" && a[0] == b[0] == c[0] {
      LexLeIsTransitive(a[1..], b[1..], c[1..]);
    }
  }

  ghost predicate IsLeast(s: seq<string>, least: string) {
    least in s && forall t | t in s :: LexLe(least, t)
  }

  /** Puts a string into a sorted sequence. */
  function Insert(x: string, s: seq<string>): seq<string> {
    if s == [] || LexLe(x, s[0]) then [x] + s else [s[0]] + Insert(x, s[1..])
  }

  function Sort(s: seq<string>): seq<string> {
    if s == [] then [] else Insert(s[0], Sort(s[1..]))
  }

  ghost predicate IsSorted(s: seq<string>) { forall i, j | 0 <= i < j < |s| :: LexLe(s[i], s[j]) }

  lemma {:induction false} InsertSorts(x: string, s: seq<string>)
    requires IsSorted(s)
    ensures IsSorted(Insert(x, s)) && multiset(Insert(x, s)) == multiset(s) + multiset{x}
  {
    if s == [] {
    } else if LexLe(x, s[0]) {
      forall j | 0 <= j < |s|
        ensures LexLe(x, s[j])
      {
        if j > 0 { LexLeIsTransitive(x, s[0], s[j]); }
      }
    } else {
      assert s == [s[0]] + s[1..];
      var rest := Insert(x, s[1..]);
      InsertSorts(x, s[1..]);
      LexLeIsTotal(x, s[0]);
      forall j | 0 <= j < |rest|
        ensures LexLe(s[0], rest[j])
      {
        assert rest[j] in multiset(rest);
        assert rest[j] == x || rest[j] in s[1..];
      }
    }
  }

  lemma {:induction false} SortSorts(s: seq<string>)
    ensures IsSorted(Sort(s)) && multiset(Sort(s)) == multiset(s)
  {
    if s != [] {
      SortSorts(s[1..]);
      InsertSorts(s[0], Sort(s[1..]));
      assert s == [s[0]] + s[1..];
    }
  }

  lemma FirstOfSorted(s: seq<string>)
    ensures Sort(s) == [] <==> s == []
    ensures s != [] ==> IsLeast(s, Sort(s)[0])
  {
    SortSorts(s);
    assert |multiset(Sort(s))| == |multiset(s)|;
    if s != [] {
      var t := Sort(s);
      assert t[0] in multiset(t);
      forall x | x in s
        ensures LexLe(t[0], x)
      {
        assert x in multiset(t);
        var i :| 0 <= i < |t| && t[i] == x;
        if i == 0 { LexLeIsTotal(x, x); }
      }
    }
  }

  /** `find_empty_slot`: the DisplayPort connectors first, then the HDMI ones, each group in byte order. */
  method FindEmptySlot(entries: seq<Entry>, card: string) returns (slot: Option<string>)
    ensures slot.Some? ==> IsChosen(entries, card, slot.value)
    ensures slot.None? ==> forall t :: !Eligible(entries, card, t)
  {
    var prefix := card + "-";
    var dpSlots, hdmiSlots := [], [];
    for i := 0 to |entries|
      invariant forall t | t in dpSlots :: "DP-" <= t && Eligible(entries, card, t)
      invariant forall t | t in hdmiSlots :: "HDMI-" <= t && Eligible(entries, card, t)
      invariant forall t | Eligible(entries[..i], card, t) :: t in dpSlots || t in hdmiSlots
    {
      var e := entries[i];
      ghost var dp0, hdmi0 := dpSlots, hdmiSlots;
      if prefix <= e.name {
        var connector := e.name[|prefix|..];
        assert e.name == card + "-" + connector && e in entries;
        if IsIdle(e) {
          if "DP-" <= connector {
            dpSlots := dpSlots + [connector];
          } else if "HDMI-" <= connector {
            hdmiSlots := hdmiSlots + [connector];
          }
        }
      }
      forall t | Eligible(entries[..i + 1], card, t)
        ensures t in dpSlots || t in hdmiSlots
      {
        EligibleInPrefix(entries, i, card, t);
      }
    }
    assert entries[..|entries|] == entries;
    FirstOfSorted(dpSlots);
    FirstOfSorted(hdmiSlots);
    var chained := Sort(dpSlots) + Sort(hdmiSlots);
    if chained == [] {
      return None;
    }
    slot := Some(chained[0]);
    forall t | Eligible(entries, card, t)
      ensures LexLe(slot.value, t)
    {
      if t !in dpSlots && dpSlots != [] {
        DpBeforeHdmi(slot.value, t);
      }
    }
  }

  lemma EligibleInPrefix(entries: seq<Entry>, i: nat, card: string, t: string)
    requires i < |entries| && Eligible(entries[..i + 1], card, t)
    ensures Eligible(entries[..i], card, t) || (entries[i].name == card + "-" + t && IsIdle(entries[i]) && IsUsable(t))
  {
    var e :| e in entries[..i + 1] && e.name == card + "-" + t && IsIdle(e);
    assert entries[..i + 1] == entries[..i] + [entries[i]];
    assert e in entries[..i] || e == entries[i];
  }

  lemma DpBeforeHdmi(a: string, b: string)
    requires "DP-" <= a && "HDMI-" <= b
    ensures LexLe(a, b)
  {
    assert a[0] == "DP-"[0] && b[0] == "HDMI-"[0];
  }

  // ---------------------------------------------------------------------------
  // Slot stability
  // ---------------------------------------------------------------------------

  /** What `find_empty_slot` answers, as a relation. */
  ghost predicate IsChosen(entries: seq<Entry>, card: string, slot: string) {
    Eligible(entries, card, slot) && forall t | Eligible(entries, card, t) :: LexLe(slot, t)
  }

  /** The entries after this status has been written to a connector of the card. */
  function WithStatus(entries: seq<Entry>, card: string, connector: string, status: string): (r: seq<Entry>)
    ensures |r| == |entries|
    ensures forall i | 0 <= i < |entries| ::
              r[i] == if entries[i].name == card + "-" + connector then entries[i].(status := Some(status))
                      else entries[i]
  {
    seq(|entries|, i requires 0 <= i < |entries| =>
      if entries[i].name == card + "-" + connector then entries[i].(status := Some(status)) else entries[i])
  }

  /**
   * Slot stability: whatever was written to the chosen connector in between, once "off" has been
   * written to it the search answers with the same connector again, and with no other.
   */
  lemma SlotIsStable(entries: seq<Entry>, card: string, slot: string, between: string, again: string)
    requires IsChosen(entries, card, slot)
    ensures var later := WithStatus(WithStatus(entries, card, slot, between), card, slot, "off");
            IsChosen(later, card, again) <==> again == slot
  {
    var later := WithStatus(WithStatus(entries, card, slot, between), card, slot, "off");
    forall t
      ensures Eligible(later, card, t) <==> Eligible(entries, card, t)
    {
      SameEligible(entries, card, slot, between, t);
    }
    if IsChosen(later, card, again) {
      LexLeIsAntisymmetric(again, slot);
    }
  }

  lemma SameEligible(entries: seq<Entry>, card: string, slot: string, between: string, t: string)
    requires Eligible(entries, card, slot)
    ensures var later := WithStatus(WithStatus(entries, card, slot, between), card, slot, "off");
            Eligible(later, card, t) <==> Eligible(entries, card, t)
  {
    if t == slot {
      SlotStaysEligible(entries, card, slot, between);
    } else {
      OthersStay(entries, WithStatus(WithStatus(entries, card, slot, between), card, slot, "off"), card, slot, t);
    }
  }

  lemma SlotStaysEligible(entries: seq<Entry>, card: string, slot: string, between: string)
    requires Eligible(entries, card, slot)
    ensures Eligible(WithStatus(WithStatus(entries, card, slot, between), card, slot, "off"), card, slot)
  {
    var later := WithStatus(WithStatus(entries, card, slot, between), card, slot, "off");
    var e :| e in entries && e.name == card + "-" + slot && IsIdle(e);
    var i :| 0 <= i < |entries| && entries[i] == e;
    assert later[i] in later && Trim("off") == "off" && IsIdle(later[i]);
  }

  lemma OthersStay(entries: seq<Entry>, later: seq<Entry>, card: string, slot: string, t: string)
    requires t != slot && |later| == |entries|
    requires forall i | 0 <= i < |entries| ::
               later[i] == entries[i] || later[i].name == entries[i].name == card + "-" + slot
    ensures Eligible(later, card, t) <==> Eligible(entries, card, t)
  {
    assert card + "-" + t != card + "-" + slot by {
      assert (card + "-" + t)[|card| + 1..] == t && (card + "-" + slot)[|card| + 1..] == slot;
    }
    if Eligible(entries, card, t) {
      var i :| 0 <= i < |entries| && entries[i].name == card + "-" + t && IsIdle(entries[i]);
      assert later[i] in later;
    }
    if Eligible(later, card, t) {
      var i :| 0 <= i < |later| && later[i].name == card + "-" + t && IsIdle(later[i]);
      assert entries[i] in entries;
    }
  }

  // ---------------------------------------------------------------------------
  // Counting
  // ---------------------------------------------------------------------------

  function ConnectedCount(entries: seq<Entry>, card: string): nat {
    if entries == [] then 0
    else
      var e := entries[|entries| - 1];
      ConnectedCount(entries[..|entries| - 1], card)
      + if card + "-" <= e.name && HasStatus(e, "connected") then 1 else 0
  }

  /** The entries of the card whose status says that something is connected, by their positions. */
  ghost function Connected(entries: seq<Entry>, card: string): set<int> {
    set i | 0 <= i < |entries| && SaysConnected(entries[i], card)
  }

  predicate SaysConnected(e: Entry, card: string) {
    card + "-" <= e.name && e.status.Some? && Trim(e.status.value) == "connected"
  }

  lemma ConnectedGrows(front: seq<Entry>, e: Entry, card: string)
    ensures Connected(front + [e], card)
            == Connected(front, card) + if SaysConnected(e, card) then {|front|} else {}
  {
  }

  lemma {:induction false} CountIsOfConnected(entries: seq<Entry>, card: string)
    ensures ConnectedCount(entries, card) == |Connected(entries, card)|
  {
    if entries != [] {
      var front, e := entries[..|entries| - 1], entries[|entries| - 1];
      CountIsOfConnected(front, card);
      assert entries == front + [e];
      ConnectedGrows(front, e, card);
    }
  }
}
