/** Which Sunshine process a client was started by (watcher.rs). */
module Ancestry {
  import opened Outcomes
  import opened Text

  /** What /proc says about a process: its parent, its owner and the text of its comm file. */
  datatype Process = Process(parent: nat, uid: nat, comm: string)

  const MAX_STEPS: nat := 32

  predicate IsSunshine(p: Process) { Trim(p.comm) == "sunshine" }

  /** A process to go on from: it is the user's, it is not Sunshine, and it has a parent other than itself. */
  predicate GoesOn(table: map<nat, Process>, uid: nat, pid: nat) {
    && pid in table && table[pid].uid == uid && !IsSunshine(table[pid])
    && table[pid].parent != 0 && table[pid].parent != pid
  }

  /** Where this many steps up lead, if every process on the way is one to go on from. */
  function Reached(table: map<nat, Process>, uid: nat, pid: nat, steps: nat): Option<nat>
    decreases steps
  {
    if steps == 0 then Some(pid)
    else
      var at := Reached(table, uid, pid, steps - 1);
      if at.Some? && GoesOn(table, uid, at.value) then Some(table[at.value].parent) else None
  }

  ghost predicate IsAncestor(table: map<nat, Process>, uid: nat, pid: nat, steps: nat, ancestor: nat) {
    && Reached(table, uid, pid, steps) == Some(ancestor)
    && ancestor in table && table[ancestor].uid == uid && IsSunshine(table[ancestor])
  }

  /** A path that ends does not go on. */
  lemma {:induction false} PathEnds(table: map<nat, Process>, uid: nat, pid: nat, i: nat, k: nat)
    requires i < k && Reached(table, uid, pid, i).Some?
    requires !GoesOn(table, uid, Reached(table, uid, pid, i).value)
    ensures Reached(table, uid, pid, k).None?
  {
    if i + 1 < k {
      PathEnds(table, uid, pid, i, k - 1);
    }
  }

  /** At most one process is the nearest Sunshine. */
  lemma AncestorIsUnique(table: map<nat, Process>, uid: nat, pid: nat, i: nat, a: nat, k: nat, b: nat)
    requires IsAncestor(table, uid, pid, i, a) && IsAncestor(table, uid, pid, k, b)
    ensures i == k && a == b
  {
    if i < k {
      PathEnds(table, uid, pid, i, k);
    } else if k < i {
      PathEnds(table, uid, pid, k, i);
    }
  }

  /**
   * `find_sunshine_ancestor`: the process itself or its nearest ancestor that is Sunshine, as long as
   * every process on the way is the user's; fewer than 32 steps are tried.
   */
  method FindSunshineAncestor(table: map<nat, Process>, requester: nat, uid: nat) returns (found: Option<nat>)
    ensures found.Some? ==> exists k :: 0 <= k < 32 && IsAncestor(table, uid, requester, k, found.value)
    ensures found.None? ==> forall k, p | 0 <= k < 32 :: !IsAncestor(table, uid, requester, k, p)
  {
    var pid := requester;
    for i := 0 to MAX_STEPS
      invariant Reached(table, uid, requester, i) == Some(pid)
      invariant forall k, p | 0 <= k < i :: !IsAncestor(table, uid, requester, k, p)
    {
      if pid in table && table[pid].uid == uid && IsSunshine(table[pid]) {
        assert IsAncestor(table, uid, requester, i, pid);
        return Some(pid);
      }
      if !GoesOn(table, uid, pid) {
        forall k, p | i < k < MAX_STEPS
          ensures !IsAncestor(table, uid, requester, k, p)
        {
          PathEnds(table, uid, requester, i, k);
        }
        return None;
      }
      pid := table[pid].parent;
    }
    found := None;
  }
}
