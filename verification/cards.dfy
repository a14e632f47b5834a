/** Choosing the card with the most connected outputs (strategy/kwin/mod.rs, strategy/kwin/sysfs.rs). */
module Cards {
  import opened Outcomes
  import opened Effects
  import opened OutsideCalls
  import Sysfs

  /** So many outputs are connected to the card; none if the connectors could not be read. */
  ghost predicate IsCount(count: nat, read: Result<seq<Sysfs.Entry>, Error>, card: string) {
    count == if read.Ok? then |Sysfs.Connected(read.value, card)| else 0
  }

  /**
   * The last calls were readings of the connectors, one for each of the first cards, and these are the counts;
   * before them there were this many moments.
   */
  ghost predicate Counted(trail: seq<Moment>, before: nat, cards: seq<string>, counts: seq<nat>)
    decreases |counts|
  {
    && |trail| == before + |counts| && |counts| <= |cards|
    && (counts != [] ==>
          var n, k := |trail| - 1, |counts| - 1;
          && trail[n].call.ReadsConnectors? && trail[n].call.entries.Lived?
          && IsCount(counts[k], trail[n].call.entries.value, cards[k])
          && Counted(trail[..n], before, cards, counts[..k]))
  }

  lemma CountedOneMore(trail: seq<Moment>, before: nat, cards: seq<string>, counts: seq<nat>, m: Moment, count: nat)
    requires Counted(trail, before, cards, counts) && |counts| < |cards|
    requires m.call.ReadsConnectors? && m.call.entries.Lived?
    requires IsCount(count, m.call.entries.value, cards[|counts|])
    ensures Counted(trail + [m], before, cards, counts + [count])
  {
    assert (trail + [m])[..|trail|] == trail && (counts + [count])[..|counts|] == counts;
  }

  /** The greatest count, and the first of these. */
  ghost predicate IsFirstGreatest(counts: seq<nat>, k: int) {
    && 0 <= k < |counts|
    && (forall j | 0 <= j < k :: counts[j] < counts[k])
    && forall j | k <= j < |counts| :: counts[j] <= counts[k]
  }

  /** From the given moment on the outputs of each card were counted, and this is the first with the most. */
  ghost predicate IsBest(trail: seq<Moment>, before: nat, cards: seq<string>, card: string) {
    exists counts, k ::
      Counted(trail, before, cards, counts) && |counts| == |cards| && IsFirstGreatest(counts, k) && cards[k] == card
  }

  /** `connected_count`: one reading. */
  method Count(outside: Outside, cards: seq<string>, i: nat, ghost before: nat, ghost counts: seq<nat>)
    returns (r: Fate<nat>)
    requires outside.Steady() && Counted(outside.trail, before, cards, counts) && |counts| == i < |cards|
    modifies outside
    ensures r.Died? ==> outside.Perished()
    ensures outside.Worked() && outside.world == old(outside.world)
    ensures r.Lived? ==> Counted(outside.trail, before, cards, counts + [r.value])
  {
    var read :- outside.ReadConnectors();
    var count := 0;
    if read.Ok? {
      count := Sysfs.ConnectedCount(read.value, cards[i]);
      Sysfs.CountIsOfConnected(read.value, cards[i]);
    }
    CountedOneMore(old(outside.trail), before, cards, counts, outside.trail[|outside.trail| - 1], count);
    r := Lived(count);
  }

  /** Counts for every card in turn and keeps the first of the best. */
  method SelectBest(outside: Outside, cards: seq<string>) returns (r: Fate<string>)
    requires outside.Steady() && cards != []
    modifies outside
    ensures r.Died? ==> outside.Perished()
    ensures outside.Worked() && outside.world == old(outside.world)
    ensures r.Lived? ==> IsBest(outside.trail, |old(outside.trail)|, cards, r.value)
  {
    ghost var before, at := |outside.trail|, 0;
    var best := cards[0];
    var bestCount :- Count(outside, cards, 0, before, []);
    ghost var counts := [bestCount];
    for i := 1 to |cards|
      invariant outside.Worked() && outside.world == old(outside.world)
      invariant Counted(outside.trail, before, cards, counts) && |counts| == i
      invariant IsFirstGreatest(counts, at) && counts[at] == bestCount && cards[at] == best
    {
      var count :- Count(outside, cards, i, before, counts);
      counts := counts + [count];
      if count > bestCount {
        bestCount, best, at := count, cards[i], i;
      }
    }
    r := Lived(best);
  }
}
