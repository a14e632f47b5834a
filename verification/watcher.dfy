/**
 * The generation tokens that tie a Sunshine watcher to its session (handler.rs, watcher.rs, sleep.rs),
 * as interleaved steps of the thread that serves requests, any number of watchers and the sleep
 * handler.  The strategy's own operations exclude one another, so each is one step.
 */
module Watchers {
  import opened Outcomes

  /** A session; `minted` once its token has been minted. */
  datatype Session = Session(id: nat, minted: bool)

  datatype Stage = Watching | Checked | Gone

  datatype Watcher = Watcher(token: nat, own: nat, stage: Stage)

  /** The serving thread: between requests, between connecting and minting, or between bumping and taking down. */
  datatype Server = Waiting | Minting(id: nat) | Bumped

  /** A watcher has called `disconnect`; the target is the session that was in place. */
  datatype Teardown = Teardown(watcher: nat, target: Option<nat>)

  datatype State = State(generation: nat, session: Option<Session>, begun: nat, server: Server,
                         watchers: seq<Watcher>, teardowns: seq<Teardown>)

  const INIT: State := State(0, None, 0, Waiting, [], [])

  datatype Step =
    | Connects                              // a connect succeeds; its token is not minted yet
    | LeavesRecovery                        // a connect fails and so does its rollback
    | Mints(spawned: bool)                  // the token is minted; the watcher may fail to start
    | Bumps                                 // a disconnect or restore request bumps the generation
    | TakesDown(session: Option<Session>)   // and then removes, keeps or adopts a session
    | Leaves(watcher: nat)                  // a watcher gives up
    | Checks(watcher: nat)                  // Sunshine has gone: the watcher compares its token
    | Tears(watcher: nat, done: bool)       // and then calls disconnect
    | ChecksAndTears(watcher: nat, done: bool) // both, as one step
    | Sleeps(done: bool)                    // the sleep handler disconnects

  predicate CanStep(s: State, step: Step) {
    match step
    case Connects => s.server.Waiting? && s.session.None?
    case LeavesRecovery => s.server.Waiting? && s.session.None?
    case Mints(_) => s.server.Minting?
    case Bumps => s.server.Waiting?
    case TakesDown(session) =>
      && s.server.Bumped?
      && (session.None? || session == s.session || (s.session.None? && session == Some(Session(s.begun, false))))
    case Leaves(i) => i < |s.watchers| && s.watchers[i].stage.Watching?
    case Checks(i) => i < |s.watchers| && s.watchers[i].stage.Watching?
    case Tears(i, _) => i < |s.watchers| && s.watchers[i].stage.Checked?
    case ChecksAndTears(i, _) => i < |s.watchers| && s.watchers[i].stage.Watching?
    case Sleeps(_) => s.session.Some?
  }

  function WithStage(s: State, i: nat, stage: Stage): State
    requires i < |s.watchers|
  {
    s.(watchers := s.watchers[i := s.watchers[i].(stage := stage)])
  }

  /** A watcher calls `disconnect` and ends. */
  function TornBy(s: State, i: nat, done: bool): State
    requires i < |s.watchers|
  {
    var target := if s.session.None? then None else Some(s.session.value.id);
    WithStage(s, i, Gone).(teardowns := s.teardowns + [Teardown(i, target)],
                           session := if done then None else s.session)
  }

  function After(s: State, step: Step): State
    requires CanStep(s, step)
  {
    match step
    case Connects => s.(session := Some(Session(s.begun, false)), begun := s.begun + 1, server := Minting(s.begun))
    case LeavesRecovery => s.(session := Some(Session(s.begun, false)), begun := s.begun + 1)
    case Mints(spawned) =>
      s.(generation := s.generation + 1, server := Waiting,
         session := if s.session.Some? then Some(s.session.value.(minted := true)) else None,
         watchers := s.watchers + if spawned then [Watcher(s.generation + 1, s.server.id, Watching)] else [])
    case Bumps => s.(generation := s.generation + 1, server := Bumped)
    case TakesDown(session) => s.(session := session, begun := s.begun + 1, server := Waiting)
    case Leaves(i) => WithStage(s, i, Gone)
    case Checks(i) => WithStage(s, i, if s.generation == s.watchers[i].token then Checked else Gone)
    case Tears(i, done) => TornBy(s, i, done)
    case ChecksAndTears(i, done) =>
      if s.generation == s.watchers[i].token then TornBy(s, i, done) else WithStage(s, i, Gone)
    case Sleeps(done) => s.(session := if done then None else s.session)
  }

  predicate IsRun(s: State, steps: seq<Step>)
    decreases steps
  {
    steps == [] || (CanStep(s, steps[0]) && IsRun(After(s, steps[0]), steps[1..]))
  }

  function End(s: State, steps: seq<Step>): State
    requires IsRun(s, steps)
    decreases steps
  {
    if steps == [] then s else End(After(s, steps[0]), steps[1..])
  }

  lemma {:induction false} RunSplits(s: State, a: seq<Step>, b: seq<Step>)
    ensures IsRun(s, a + b) <==> IsRun(s, a) && IsRun(End(s, a), b)
    ensures IsRun(s, a + b) ==> End(s, a + b) == End(End(s, a), b)
    decreases a
  {
    if a == [] {
      assert a + b == b;
    } else {
      assert (a + b)[1..] == a[1..] + b;
      if CanStep(s, a[0]) {
        RunSplits(After(s, a[0]), a[1..], b);
      }
    }
  }

  // ---------------------------------------------------------------------------
  // What every run keeps
  // ---------------------------------------------------------------------------

  predicate IsLive(s: State, i: int) { 0 <= i < |s.watchers| && !s.watchers[i].stage.Gone? }

  /** Tokens grow from watcher to watcher, and so do the sessions they belong to. */
  ghost predicate TokensGrow(s: State) {
    && (forall i | 0 <= i < |s.watchers| :: s.watchers[i].token <= s.generation && s.watchers[i].own < s.begun)
    && (forall i, j | 0 <= i < j < |s.watchers| ::
          s.watchers[i].token < s.watchers[j].token && s.watchers[i].own < s.watchers[j].own)
  }

  /** Of the watcher with the current token, if it is alive: the session in place is its own if it is minted. */
  ghost predicate CurrentIsOwn(s: State) {
    forall i | 0 <= i < |s.watchers| && s.watchers[i].token == s.generation && s.session.Some? ::
      s.watchers[i].own == s.session.value.id <==> s.session.value.minted
  }

  ghost predicate ServerAgrees(s: State) {
    && (s.session.Some? ==> s.session.value.id < s.begun)
    && (s.server.Minting? ==>
          && s.server.id < s.begun && (s.session.Some? ==> s.session.value == Session(s.server.id, false))
          && forall i | 0 <= i < |s.watchers| :: s.watchers[i].own < s.server.id)
    && (s.server.Bumped? ==> forall i | 0 <= i < |s.watchers| :: s.watchers[i].token < s.generation)
  }

  /** Whoever has torn down is gone, and has done so once. */
  ghost predicate TeardownsAreOnce(s: State) {
    && (forall k | 0 <= k < |s.teardowns| ::
          s.teardowns[k].watcher < |s.watchers| && s.watchers[s.teardowns[k].watcher].stage.Gone?)
    && (forall k, l | 0 <= k < l < |s.teardowns| :: s.teardowns[k].watcher != s.teardowns[l].watcher)
  }

  ghost predicate Inv(s: State) { TokensGrow(s) && CurrentIsOwn(s) && ServerAgrees(s) && TeardownsAreOnce(s) }

  lemma StepKeepsTokens(s: State, step: Step)
    requires TokensGrow(s) && ServerAgrees(s) && CanStep(s, step)
    ensures TokensGrow(After(s, step))
  {
  }

  lemma StepKeepsOwn(s: State, step: Step)
    requires TokensGrow(s) && CurrentIsOwn(s) && ServerAgrees(s) && CanStep(s, step)
    ensures CurrentIsOwn(After(s, step))
  {
  }

  lemma StepKeepsServer(s: State, step: Step)
    requires TokensGrow(s) && ServerAgrees(s) && CanStep(s, step)
    ensures ServerAgrees(After(s, step))
  {
  }

  lemma StepKeepsTeardowns(s: State, step: Step)
    requires TeardownsAreOnce(s) && CanStep(s, step)
    ensures TeardownsAreOnce(After(s, step))
  {
  }

  lemma StepKeepsInv(s: State, step: Step)
    requires Inv(s) && CanStep(s, step)
    ensures Inv(After(s, step))
  {
    StepKeepsTokens(s, step);
    StepKeepsOwn(s, step);
    StepKeepsServer(s, step);
    StepKeepsTeardowns(s, step);
  }

  /** Every run that starts in such a state ends in one, and so does every run of the daemon. */
  lemma {:induction false} RunKeepsInv(s: State, steps: seq<Step>)
    requires Inv(s) && IsRun(s, steps)
    ensures Inv(End(s, steps))
    decreases steps
  {
    if steps != [] {
      StepKeepsInv(s, steps[0]);
      RunKeepsInv(After(s, steps[0]), steps[1..]);
    }
  }

  /** In every run no watcher calls `disconnect` twice, and at most one holds the current token. */
  lemma TokensAreExclusive(steps: seq<Step>, i: nat, j: nat)
    requires IsRun(INIT, steps)
    ensures var s := End(INIT, steps);
            && (i < j < |s.teardowns| ==> s.teardowns[i].watcher != s.teardowns[j].watcher)
            && (i < j < |s.watchers| ==> !(s.watchers[i].token == s.generation == s.watchers[j].token))
  {
    RunKeepsInv(INIT, steps);
  }

  /**
   * What the token tells, exactly: in every run, a watcher that holds the current token is looking at
   * its own session if and only if the session in place has had its token minted.
   */
  lemma CurrentTokenIsOwnIff(steps: seq<Step>, i: nat)
    requires IsRun(INIT, steps)
    requires i < |End(INIT, steps).watchers| && End(INIT, steps).watchers[i].token == End(INIT, steps).generation
    requires End(INIT, steps).session.Some?
    ensures var s := End(INIT, steps); s.session.value.id == s.watchers[i].own <==> s.session.value.minted
  {
    RunKeepsInv(INIT, steps);
  }

  // ---------------------------------------------------------------------------
  // Checking and disconnecting as one step, and no sleep handler
  // ---------------------------------------------------------------------------

  predicate IsSimple(step: Step) { !step.Checks? && !step.Tears? && !step.Sleeps? }

  /** A watcher that could still act finds its own session in place. */
  ghost predicate LiveIsOwn(s: State) {
    && (forall i | IsLive(s, i) && s.watchers[i].token == s.generation ::
          s.watchers[i].stage.Watching? && s.session.Some? && s.session.value.id == s.watchers[i].own)
    && (s.server.Minting? ==> s.session.Some?)
    && forall k | 0 <= k < |s.teardowns| ::
         s.teardowns[k].watcher < |s.watchers| && s.teardowns[k].target == Some(s.watchers[s.teardowns[k].watcher].own)
  }

  lemma SimpleStepKeepsOwn(s: State, step: Step)
    requires TokensGrow(s) && ServerAgrees(s) && LiveIsOwn(s) && CanStep(s, step) && IsSimple(step)
    ensures LiveIsOwn(After(s, step))
  {
  }

  lemma {:induction false} SimpleRunKeepsOwn(s: State, steps: seq<Step>)
    requires Inv(s) && LiveIsOwn(s) && IsRun(s, steps)
    requires forall i | 0 <= i < |steps| :: IsSimple(steps[i])
    ensures LiveIsOwn(End(s, steps))
    decreases steps
  {
    if steps != [] {
      StepKeepsInv(s, steps[0]);
      SimpleStepKeepsOwn(s, steps[0]);
      SimpleRunKeepsOwn(After(s, steps[0]), steps[1..]);
    }
  }

  /** Then every watcher only ever tears down the session it was started for. */
  lemma OnlyOwnSessions(steps: seq<Step>, k: nat)
    requires IsRun(INIT, steps) && forall i | 0 <= i < |steps| :: IsSimple(steps[i])
    requires k < |End(INIT, steps).teardowns|
    ensures var s := End(INIT, steps);
            var t := s.teardowns[k];
            t.watcher < |s.watchers| && t.target == Some(s.watchers[t.watcher].own)
  {
    SimpleRunKeepsOwn(INIT, steps);
  }

  // ---------------------------------------------------------------------------
  // The two windows
  // ---------------------------------------------------------------------------

  /** Between the check and the call, the session can be replaced. */
  const CHECKED: seq<Step> := [Connects, Mints(true), Checks(0), Bumps]
  const REPLACED: seq<Step> := [TakesDown(None), Connects, Mints(true), Tears(0, true)]

  /** After the sleep handler has disconnected, the old token is current until the next one is minted. */
  const ASLEEP: seq<Step> := [Connects, Mints(true), Sleeps(true), Connects, ChecksAndTears(0, true)]

  lemma CheckedRun()
    ensures IsRun(INIT, CHECKED)
    ensures End(INIT, CHECKED) == State(2, Some(Session(0, true)), 1, Bumped, [Watcher(1, 0, Checked)], [])
  {
  }

  lemma ReplacedRun(s: State)
    requires s == State(2, Some(Session(0, true)), 1, Bumped, [Watcher(1, 0, Checked)], [])
    ensures IsRun(s, REPLACED)
    ensures var t := End(s, REPLACED);
            t.watchers != [] && t.watchers[0] == Watcher(1, 0, Gone) && t.teardowns == [Teardown(0, Some(2))]
  {
  }

  lemma StaleCheckTearsAnother()
    ensures IsRun(INIT, CHECKED + REPLACED)
    ensures forall i | 0 <= i < |CHECKED + REPLACED| :: !(CHECKED + REPLACED)[i].Sleeps?
    ensures var s := End(INIT, CHECKED + REPLACED);
            s.watchers != [] && s.watchers[0] == Watcher(1, 0, Gone) && s.teardowns == [Teardown(0, Some(2))]
  {
    CheckedRun();
    ReplacedRun(End(INIT, CHECKED));
    RunSplits(INIT, CHECKED, REPLACED);
  }

  lemma SleepLetsTearAnother()
    ensures IsRun(INIT, ASLEEP) && forall i | 0 <= i < |ASLEEP| :: !ASLEEP[i].Checks? && !ASLEEP[i].Tears?
    ensures var s := End(INIT, ASLEEP); s.watchers[0].own == 0 && s.teardowns == [Teardown(0, Some(1))]
  {
  }

  /** No watcher holds the current token. */
  ghost predicate Unwatched(s: State) { forall i | 0 <= i < |s.watchers| :: s.watchers[i].token < s.generation }

  lemma {:induction false} UnwatchedStays(s: State, more: seq<Step>)
    requires Unwatched(s) && IsRun(s, more) && forall i | 0 <= i < |more| :: !more[i].Mints?
    ensures Unwatched(End(s, more))
    decreases more
  {
    if more != [] {
      UnwatchedStays(After(s, more[0]), more[1..]);
    }
  }

  /**
   * A session that a restore request keeps or adopts has lost its watcher: in every run, from the bump
   * on and until a token is minted for another session, no watcher holds the current token.
   */
  lemma RestoredIsUnwatched(steps: seq<Step>, more: seq<Step>)
    requires IsRun(INIT, steps + [Bumps] + more) && forall i | 0 <= i < |more| :: !more[i].Mints?
    ensures Unwatched(End(INIT, steps + [Bumps] + more))
  {
    RunSplits(INIT, steps + [Bumps], more);
    RunSplits(INIT, steps, [Bumps]);
    RunKeepsInv(INIT, steps);
    var s := End(INIT, steps);
    assert End(s, [Bumps]) == After(s, Bumps);
    UnwatchedStays(After(s, Bumps), more);
  }

  // ---------------------------------------------------------------------------
  // The watcher's own loop
  // ---------------------------------------------------------------------------

  datatype Poll = Quiet | Interrupted | Broken | Exited

  /** What one turn of the loop sees: the flag, the generation, the poll, and the generation once more. */
  datatype Turn = Turn(shutdown: bool, before: nat, poll: Poll, after: nat)

  /** A turn after which the watcher goes on watching. */
  predicate Waits(t: Turn, token: nat) { !t.shutdown && t.before == token && (t.poll.Quiet? || t.poll.Interrupted?) }

  /** A turn in which it disconnects: Sunshine is gone, and the token was current both times. */
  predicate Fires(t: Turn, token: nat) { !t.shutdown && t.before == token && t.poll.Exited? && t.after == token }

  /** It has waited through every turn before this one, in which it disconnects. */
  ghost predicate FiresAt(turns: seq<Turn>, token: nat, k: int) {
    0 <= k < |turns| && Fires(turns[k], token) && forall j | 0 <= j < k :: Waits(turns[j], token)
  }

  /** `watch_loop`, given what its turns see; whether it calls `disconnect` in any of them. */
  method WatchLoop(turns: seq<Turn>, token: nat) returns (disconnects: bool)
    ensures disconnects <==> exists k :: FiresAt(turns, token, k)
  {
    for i := 0 to |turns|
      invariant forall j | 0 <= j < i :: Waits(turns[j], token)
    {
      var turn := turns[i];
      if turn.shutdown || turn.before != token {
        return false;
      }
      match turn.poll
      case Quiet =>
      case Interrupted =>
      case Broken =>
        return false;
      case Exited =>
        if turn.after == token {
          assert FiresAt(turns, token, i);
          return true;
        }
        return false;
    }
    disconnects := false;
  }
}
